# AxonOps developer operator: a model of its reconciler, and proofs

The operator watches `AxonOpsCassandra` resources and gives each of them an
Elasticsearch, a dashboard, an AxonOps server and a Cassandra cluster.  This project
models the reconciler, the generators of its child objects, the map and list helpers
and the generated deep copy, and proves what they keep, where they lead and where they
fall short.  `dafny verify dfyconfig.toml` checks everything.

## How the model is built

- `Types`, `Apps`, `Children`: the custom resource field by field; each generator as a
  partial function from a spec to an object with its names, labels, selectors,
  environment and cross-references; and one `Piece` for each of the eleven
  look-up, generate, create-or-update blocks of the reconciler.  Whether a template renders
  and how a quantity prints are parameters (`Library`).
- `Api`: the API server.  A call is one atomic step.  It may succeed, be refused
  without effect, or take effect and still report an error; the Get of a child may also
  be answered wrongly from a stale cache.
- `Controller`: the reconciler with its local variables, loops and early returns, as a
  class over a client whose store others may replace between any two calls.
  `Reconcile` is the same pass as a coroutine: its state, the call it makes next, and how it goes
  on.  `Controller.Reconciler.Reconcile` is proved equal to running the coroutine, for
  every script of faults and interference.  All other theorems are about the coroutine.
- `World`: users, passes and crashes as actions; a run is any sequence of actions.
  `Sound` is the invariant of all runs.
- `Safety`, `StaleReads`, `Exactness`, `Progress`, `Persistence`, `Network`, `Wiring`, `Independence`, `Crossings`, `Neighbours`,
  `MetricsBranch`: theorems about all runs.
  `Convergence`, `Recovery`, `MetricsRetry`, `Edits`: theorems about passes nobody interferes with, with any number of failing calls.
  `Fields`: which edits show in the objects a spec generates.
  `Outcomes`, `Contents`: what a pass leaves under each key, with the names written out, and which slot of which object
  each field of the spec ends up in.  Look-up keys, the create-only Services, the plan of the blocks, ports, defaults and
  environment entries are spelled out there a second time, independently of the definitions the blocks are modelled with.
  `Interleaving` ties the two together.
- `Maps`, `StringLists`: the loops of `utils.go` against mathematical definitions.
- `GoHeap`, `ServerEnvironment`, `DeepCopy`, `DeepCopyLaws`, `DeepCopyObjects`: Go's maps and slices as heap objects; `append` under
  aliasing; the deep copy as code that first aliases everything and then replaces each reference.

## What is assumed

- At most one pass for a resource is in flight, and one operator is active.
- An Update of a custom resource is rejected when its resourceVersion has moved.  A Create on a
  present key fails, an Update on an absent key fails, and a Delete leaves the key absent.
- The Get of the custom resource itself is not stale, except in `StaleReads`.  The Gets of children may be, except where a theorem asks for `ReadsFresh` (no stale answer to the resource's own last pass) or `Quiet`.
- Nobody but the operator writes child objects or takes the operator's finalizer away.  Users may do anything else:
  create, edit, delete, add and remove other finalizers, at any moment.
- Failed passes are retried.

## What turned out not to hold

- If one resource is called `metrics-` followed by the name of another in the same namespace, the metrics
  Cassandra cluster of the second is the main cluster of the first.  Finalizer safety then fails, and only then
  (`Exactness.FinalizerSafetyIff`).
- The metrics StatefulSet is looked up as `ca-mt-n` and created as `ca-metrics-n`.  After
  the first pass that creates it, every later pass with metrics on stops there, and
  the server and the main cluster are not updated any more (`MetricsBranch.StuckForever`, `MetricsBranch.AtMostOneSuccess`).
- The metrics Service is looked up as `ca-n` and created as `ca-metrics-n`.  With metrics on, a pass fails whenever one of the
  two is stored without the other, so that metrics cannot be switched on once the main cluster runs
  (`Outcomes.MetricsServiceMismatch`).
- What a Cassandra node does before it stops is decided by the metrics cluster's volume for both clusters
  (`Contents.ClustersDrainIff`).
- The operator never deletes a metrics object it has created (`MetricsBranch.MetricsObjectsStay`), so a teardown is complete
  exactly when there was none (`Recovery.CompleteTeardownIff`).
- The agent of the metrics cluster points at the Service `as-metrics-n`, which nothing creates.  After a complete pass
  all endpoints of a resource resolve exactly when no metrics StatefulSet of it is stored (`Wiring.WiringIff`); switching metrics
  off does not help, because it stays (`MetricsBranch.NeverAllWiredAgain`).
- The hash of a map writes no separators: every map shares its text with another (`Maps.HashInputCollides`).  With the keys
  known it determines the map exactly when there is at most one key (`Maps.DeterminedIff`), or when the lengths of the
  values are known as well (`Maps.SameShapeDetermines`).
- If the Get of a resource is answered from a cache, an old copy can make a pass create children of a resource that is
  no longer protected (`StaleReads.StaleRunIsUnsafe`); `StaleReads.MisreadSafeIff` says exactly which copies are harmless.
- Some fields of the spec reach no child: the dashboard's replicas, the pull policies of all but Cassandra, the Ingress's
  TLS list, path, path type and Service name, the main cluster's own volume, and the resource claims of every component
  (`Edits.UnusedFields`).  For the others `Fields.SameWrittenIff` says exactly which edits show in which object: switching
  metrics off and writing their two entries by hand is an edit that shows in none (`Fields.TwinGoesUnnoticed`,
  `Fields.TwinInPassesIff`).
- The Ingress template calls `default` with its arguments the wrong way round for path and path type, so that the
  path is always `/` and the type always `Prefix` (`Network.IngressRules`): what the spec asks for is honoured only if it is that
  (`Network.PathHonouredIff`).

## Model

| member | source | states |
|---|---|---|
| Controller.Reconciler.Reconcile | internal/controller/axonopscassandra_controller.go:61-499 | the imperative pass makes the same calls, leaves the same store, stops at the same point and returns an error in the same cases as the coroutine, for every script of faults and interference |
| Controller.Reconciler.AddFinalizer | internal/controller/axonopscassandra_controller.go:74-82 | the finalizer branch for a live resource, up to the first block |
| Controller.Reconciler.Finalize | internal/controller/axonopscassandra_controller.go:83-129 | the deletion branch with its two loops: all keys of the teardown list in order, then the finalizer is dropped; the first error ends it |
| Controller.Reconciler.DeleteAll | internal/controller/axonopscassandra_controller.go:100-121 | deletes the keys in order up to the first error other than "not found" |
| Controller.Reconciler.Block | internal/controller/axonopscassandra_controller.go:144-188 | one look-up, generate, create-or-update block, with the create-only form for the es and ds Services and no others (`Outcomes.ElasticAndDashboardLeft`, `Outcomes.ServerAndCassandraLeft`) |
| Controller.Reconciler.ElasticAndDashboard | internal/controller/axonopscassandra_controller.go:137-271 | steps 1 and 2 are the five blocks in order, the Ingress only when enabled (`Outcomes.ElasticAndDashboardLeft`, `Outcomes.SucceedsIff`) |
| Controller.Reconciler.Metrics | internal/controller/axonopscassandra_controller.go:273-346 | step 3, with the data centre set in the in-memory copy; where its look-ups go is fixed by `Outcomes.SucceedsIff` and `Outcomes.MetricsServiceMismatch` |
| Controller.Reconciler.ServerAndCassandra | internal/controller/axonopscassandra_controller.go:347-476 | steps 4 and 5 |
| Controller.Reconciler.GetObject | internal/controller/axonopscassandra_controller.go:514-554 | the get helpers: an object, "not found" or another error |
| Controller.Reconciler.DeleteObject | internal/controller/axonopscassandra_controller.go:556-612 | the delete helpers: "not found" is no error |
| Reconcile.RankDecreases | internal/controller/axonopscassandra_controller.go:61-499 | every pass ends: a measure decreases with each call, whatever the answers |
| Safety.FinalizerSafety | internal/controller/axonopscassandra_controller.go:74-130 | in every state of every run, a resource that is absent or lacks the finalizer has none of its nine base children |
| StaleReads.MisreadSafeIff | internal/controller/axonopscassandra_controller.go:66-82 | if the Get of the resource is answered with an old copy, all continuations are safe if and only if that copy is not a live one with the finalizer, or a resource with the finalizer is stored |
| StaleReads.TimelyIsSafe | internal/controller/axonopscassandra_controller.go:66-130 | finalizer safety in all runs with any number of old copies that are harmless in this sense |
| StaleReads.StaleRunIsUnsafe | internal/controller/axonopscassandra_controller.go:66-157 | a run, from the empty world, in which a copy from before the deletion leads to a child of an unprotected resource |
| Exactness.FinalizerSafetyIff | internal/controller/axonopscassandra_controller.go:74-130 | given any spec with metrics on whose generators render: that holds of all runs over a set of resources if and only if none is called `metrics-` plus another's name |
| Exactness.ClashIsUnsafe | internal/controller/axonopscassandra_controller.go:291-316 | the run that breaks it when the names clash |
| Safety.WriteAhead | internal/controller/axonopscassandra_controller.go:66-82 | whenever a child appears or changes in any run, the stored resource it belongs to carries the finalizer |
| Safety.EveryWriteGuarded | internal/controller/axonopscassandra_controller.go:66-82 | and so it is at every Create and Update of a child that a pass in any reachable state is about to make, whether it succeeds or changes anything |
| Safety.ChildrenWrittenBy | internal/controller/axonopscassandra_controller.go:156-476 | and the writer is a pass of that resource at one of its own blocks, which writes that block's key and no other |
| Safety.RunConserves | internal/controller/axonopscassandra_controller.go:74-130 | over any stretch of operator actions the spec, the deletion mark and the other finalizers, in their order, are kept; a resource disappears only when it is being deleted and nobody else's finalizer holds it |
| Safety.FinalizerRoundTrip | internal/controller/axonopscassandra_controller.go:77-124 | in any run of operator, users, other resources, faults and crashes, with edits that keep the other finalizers and a deletion in between: the other finalizers stay as they were, and when the operator's is gone again the list is the original one |
| Exactness.FinalizerComesAndGoes | internal/controller/axonopscassandra_controller.go:77-124 | such a run: the finalizer is added, the user deletes, teardown removes it, the user's list is back |
| World.ExecSound | internal/controller/axonopscassandra_controller.go:61-499 | the invariant behind it, in all runs: a pass that looks up or writes children works on a resource stored with the finalizer, what it is about to write is what its generator gives, and a copy whose version is still current is still equal to the stored resource |
| Safety.ExecTearingDown | internal/controller/axonopscassandra_controller.go:98-129 | in all runs, while a pass tears down, its resource is stored with the finalizer and being deleted |
| World.ApplySound | internal/controller/axonopscassandra_controller.go:61-499 | each single user action, call, fault and crash keeps that invariant |
| Interleaving.PassInRun | internal/controller/axonopscassandra_controller.go:61-499 | a pass in any interleaving ends as the coroutine, and so the imperative reconciler, ends on the stores and faults it met |
| Interleaving.CallsRun | internal/controller/axonopscassandra_controller.go:61-499 | undisturbed calls of a pass in a run are the coroutine run to its end |
| Convergence.RunBlocks | internal/controller/axonopscassandra_controller.go:137-476 | however the blocks end, a prefix of them is executed: those children settled, nothing settled lost, other keys unchanged; blocks that are ready are stopped only by a failing call |
| Convergence.OneBlock | internal/controller/axonopscassandra_controller.go:144-188 | a block either has exactly the effect of its simple form or stops the pass |
| Convergence.SettledBlocksSkip | internal/controller/axonopscassandra_controller.go:144-476 | blocks whose children are settled change nothing |
| Recovery.PassTowardsGoal | internal/controller/axonopscassandra_controller.go:61-499 | from any store and with any failing calls, a pass never moves the goal, and reaches it exactly unless it fails |
| Recovery.BoundedRecovery | internal/controller/axonopscassandra_controller.go:61-499 | metrics off, generators that render, at most n failing calls: one of the first n + 1 passes succeeds and leaves exactly the goal |
| Neighbours.RecoveryAmongOthers | internal/controller/axonopscassandra_controller.go:61-499 | the same inside runs: passes of one resource with fewer failing calls and crashes than passes, interleaved in any way with resources it does not clash with, end with exactly its goal for its entry and all its keys |
| Neighbours.MetricsAmongOthers | internal/controller/axonopscassandra_controller.go:278-316 | and with metrics on: they reach the goal, unless one fails after its metrics StatefulSet has been created; either way no later pass can succeed |
| Recovery.TeardownRecovery | internal/controller/axonopscassandra_controller.go:83-129 | a resource being deleted: the same, whatever the spec, flags and generators, and then the nine base children and the finalizer are gone |
| MetricsRetry.MetricsDichotomy | internal/controller/axonopscassandra_controller.go:278-316 | metrics on, at most n failing calls: the first n + 1 passes reach the goal, unless one of them fails after its metrics StatefulSet has been created; either way every later pass fails |
| MetricsRetry.RetryableIff | internal/controller/axonopscassandra_controller.go:281-303 | after a pass the next one can still succeed if and only if the metrics StatefulSet has not been created |
| Recovery.TeardownGoal | internal/controller/axonopscassandra_controller.go:83-129 | what exactly teardown leaves: which children, which finalizers, and every other resource untouched |
| Recovery.CompleteTeardownIff | internal/controller/axonopscassandra_controller.go:84-121 | after teardown no child at all is left if and only if there was no metrics object |
| Recovery.LiveGoal | internal/controller/axonopscassandra_controller.go:137-476 | the goal of a live resource: every child equals its generated object, create-only Services keep their content, no other child changes, the resource carries the finalizer |
| Recovery.OrderedProgress | internal/controller/axonopscassandra_controller.go:156-476 | a pass that stops early has settled everything before its stopping point and left everything after it alone |
| Recovery.PassSucceedsIff | internal/controller/axonopscassandra_controller.go:144-476 | without failing calls a pass runs all blocks if and only if what it needs renders and every block finds under the key it looks up what is under the key it writes |
| Recovery.SecondPassChangesNothing | internal/controller/axonopscassandra_controller.go:61-499 | a pass after a successful one changes nothing, resource versions included, even if it fails half-way |
| Progress.ProgressInAnyRun | internal/controller/axonopscassandra_controller.go:144-476 | in any interleaving all children a pass has got past stay as it left them, until the next pass of that resource begins; stale Gets of earlier passes and of other resources do no harm |
| Persistence.SettledStays | internal/controller/axonopscassandra_controller.go:144-476 | and through all later passes, complete or not, with stale Gets, faults and crashes: while the spec stays, a child that is as the spec wants it remains so |
| Persistence.ConvergedStays | internal/controller/axonopscassandra_controller.go:144-476 | after a pass that ran all its blocks on the stored spec, all children of the spec stay as wanted until an edit or a deletion |
| Edits.EditReaches | internal/controller/axonopscassandra_controller.go:144-476 | after an edit of a converged resource no pass, failing or not, changes a child unless the edit changed something its generator reads or put it into the plan; the create-only Services never change |
| Edits.UnusedFields | apps/dashboard.go:209-298 | editing any of the unused fields, the resource claims of all components among them, is never noticed by any pass |
| Edits.GenerateReads | apps/elastic.go:185-205 | what each generator reads: specs that agree on it give the same object (es takes its labels from the server, the metrics Service from the main cluster) |
| Fields.SameWrittenIff | apps/cassandra.go:297-320 | for every block: two specs write the same object, endpoints as text and nil maps as empty, if and only if they agree on what `SameView` lists, after defaults; so exactly those edits show in that object |
| Fields.TwinGoesUnnoticed | apps/axon-server.go:158-167 | switching metrics off and writing CQL_HOSTS and CQL_LOCAL_DC by hand shows in no generated object |
| Fields.TwinInPassesIff | internal/controller/axonopscassandra_controller.go:288-290 | for the passes, which set the data centre while metrics are on, that edit goes unnoticed by the nine base children if and only if the main cluster's data centre is given |
| Fields.TwinsIff | apps/axon-server.go:158-167 | and that is the only way the metrics flag and the environment can change unnoticed by the server's object |
| Fields.ObjectsTellFields | apps/dashboard.go:209-298 | specs that leave nothing to defaults and write the same objects for all blocks, the Ingress's and the metrics cluster's included although no child shows the latter while metrics are off, have equal fields but for the unused ones; the metrics flag and the server's environment only together |
| Edits.ClusterReads | internal/controller/axonopscassandra_controller.go:420-425 | a cluster's own volume and claims are not read: its storage is given by the caller, from the metrics cluster |
| Independence.NonInterference | internal/controller/axonopscassandra_controller.go:84-121 | any interleaving of the actions on one resource with those on resources whose names do not clash with its, or, while neither has metrics on, with any other resources, gives the same world as doing its actions first |
| Independence.ActionsCommute | internal/controller/axonopscassandra_controller.go:144-476 | two single actions on resources whose names do not clash, or whose metrics are off, commute |
| Independence.FootprintsDisjointIff | internal/controller/axonopscassandra_controller.go:84-121 | the child keys that passes of two resources may look up, write or delete under any spec are disjoint if and only if the resources are different and neither is named like the other with `metrics-` or `mt-` in front |
| Crossings.SerialisableIff | internal/controller/axonopscassandra_controller.go:278-346 | given a spec with metrics on that renders for both: at every point of every run, every interleaving of two resources' actions has the outcome of one of the two serial orders, if and only if neither is named like the other with `metrics-` or `mt-` in front; the failing runs start from the empty world |
| Crossings.MetricsClashCrosses | internal/controller/axonopscassandra_controller.go:281-303 | the run with a `metrics-` name: one pass creates what the other has found absent and then fails to create |
| Crossings.MtClashCrosses | internal/controller/axonopscassandra_controller.go:93-107 | the run with an `mt-` name: a teardown deletes one of two objects that the other resource's pass is creating |
| Outcomes.SucceedsIff | internal/controller/axonopscassandra_controller.go:137-476 | a pass without failing calls over a live resource succeeds if and only if the nine base objects render (the es- and ds- Services only if they are absent), the Ingress renders if it is enabled, and, with metrics on, both metrics objects render, `ca-mt-n` and `ca-metrics-n` are both stored StatefulSets or neither is, and `ca-n` and `ca-metrics-n` are both stored Services or neither is |
| Outcomes.ElasticAndDashboardLeft | internal/controller/axonopscassandra_controller.go:137-271 | after a successful pass the es- StatefulSet, the ds- Deployment and, if it is enabled, the ds- Ingress are what the generators return for the stored spec; the es- and ds- Services are what was stored, or are generated if nothing was; a disabled Ingress stays as it was |
| Outcomes.ServerAndCassandraLeft | internal/controller/axonopscassandra_controller.go:347-476 | after a successful pass the as- and ca- StatefulSets and Services are what the generators return, whatever was stored; the main cluster takes the metrics cluster's volume, and `axonops1` for a missing data centre while metrics are on |
| Outcomes.MetricsLeft | internal/controller/axonopscassandra_controller.go:278-346 | after a successful pass with metrics on the ca-metrics- StatefulSet and Service are what the generators return, with the main cluster's labels on the Service; with metrics off they stay as they were |
| Outcomes.NothingElseChanges | internal/controller/axonopscassandra_controller.go:74-476 | however a pass over a live resource ends, no key but those eleven changes, no other resource does, and the resource at most gains `axonops.com/finalizer` at the end of its list, which a successful pass leaves there |
| Outcomes.NamelessGetsNothing | internal/controller/axonopscassandra_controller.go:132-135 | a resource without a name gets no children, and its pass fails only with a failing call |
| Outcomes.MetricsServiceMismatch | internal/controller/axonopscassandra_controller.go:319-343 | with metrics on and exactly one of the Services `ca-n` and `ca-metrics-n` stored, every pass fails and leaves exactly that one stored |
| Outcomes.MetricsClusterMismatch | internal/controller/axonopscassandra_controller.go:281-316 | the same for the StatefulSets `ca-mt-n` and `ca-metrics-n` |
| Outcomes.PlanOrder | internal/controller/axonopscassandra_controller.go:137-476 | the keys of the blocks in the order they are worked on, with the Ingress and the metrics cluster where the spec asks for them |
| Outcomes.TeardownOrder | internal/controller/axonopscassandra_controller.go:84-121 | the nine, or with metrics on eleven, keys a teardown deletes, in the order of the calls |
| Outcomes.TeardownLeaves | internal/controller/axonopscassandra_controller.go:97-128 | after a teardown that does not fail exactly those keys are gone, the finalizer is off the list, the resource is gone if and only if nothing else was on it, and no other resource changes |
| Outcomes.ErrorsEndPass | internal/controller/axonopscassandra_controller.go:66-476 | which answers end a pass with an error: every error, and "not found" for an Update or a Create; a Get or a Delete that finds nothing goes on |
| MetricsBranch.StuckForever | internal/controller/axonopscassandra_controller.go:278-316 | once ca-metrics-n exists without ca-mt-n, no pass with metrics on gets past step 3, in any run, and the later children keep their content |
| MetricsBranch.AtMostOneSuccess | internal/controller/axonopscassandra_controller.go:278-346 | with metrics on, after the first pass that runs all blocks no later one does |
| MetricsBranch.MetricsObjectsStay | internal/controller/axonopscassandra_controller.go:93-116 | a metrics object, once created, is never removed by the operator |
| MetricsBranch.NeverAllWiredAgain | internal/controller/axonopscassandra_controller.go:278-316 | so once a metrics cluster is stored, not all endpoints resolve after any later complete pass, with metrics on or off |
| Children.TargetsCollide | internal/controller/axonopscassandra_controller.go:144-476 | two blocks of any two resources write the same key if and only if they are the same block, or one is a metrics block and the names clash |
| Children.MtKeysCollide | internal/controller/axonopscassandra_controller.go:93-116 | the objects called ca-mt- that a teardown deletes are a child of another resource exactly when that one is called `mt-` plus this one's name |
| Children.TeardownKeys | internal/controller/axonopscassandra_controller.go:84-121 | the teardown lists hold exactly the nine base children and, with metrics on, the two keys called ca-mt-n |
| Children.NamesApart | internal/controller/axonopscassandra_controller.go:84-91 | the four name prefixes never meet, and each is injective |
| Children.CassandraNames | internal/controller/axonopscassandra_controller.go:281-292 | the looked-up and the created metrics names never coincide |
| Children.GenerateLabelled | internal/controller/axonopscassandra_controller.go:150-461 | every generated object has its block's key, and selectors, match labels and pod labels all carry that name |
| Children.GenerateIgnoresDc | internal/controller/axonopscassandra_controller.go:288-290 | the in-memory data centre reaches the main Cassandra StatefulSet only |
| Apps.GenerateElasticsearchConfig | apps/elastic.go:185-230 | the es- StatefulSet: key, labels and selectors agree |
| Apps.GenerateElasticsearchServiceConfig | apps/elastic.go:232-263 | the es- Service: key and selector agree |
| Apps.GenerateDashboardConfig | apps/dashboard.go:209-250 | the ds- Deployment: key, labels and selectors agree |
| Apps.GenerateDashboardServiceConfig | apps/dashboard.go:252-283 | the ds- Service: key and selector agree |
| Apps.GenerateDashboardIngressConfig | apps/dashboard.go:285-323 | the ds- Ingress, nothing when disabled |
| Apps.GenerateServerConfig | apps/axon-server.go:157-208 | the as- StatefulSet: key, labels and selectors agree |
| Apps.GenerateServerServiceConfig | apps/axon-server.go:210-241 | the as- Service: key and selector agree |
| Apps.GenerateCassandraConfig | apps/cassandra.go:297-345 | a ca- StatefulSet, main or metrics: key, labels and selectors agree; the rest is `Contents.CassandraSays`, `Contents.CassandraEnvironment` and `Contents.DrainsIff` |
| Apps.GenerateCassandraServiceConfig | apps/cassandra.go:347-378 | a ca- Service, main or metrics: key and selector agree; its ports are `Contents.ServicesOffer` and `Contents.CqlArrives` |
| Contents.DrainsIff | apps/cassandra.go:240-266 | a Cassandra StatefulSet runs `nodetool drain` before it stops if and only if it claims a volume, and `nodetool decommission` otherwise |
| Contents.ClustersDrainIff | internal/controller/axonopscassandra_controller.go:291-296 | for both clusters that is decided by the size of the metrics cluster's volume |
| Contents.StoredClusterDrainsIff | internal/controller/axonopscassandra_controller.go:404-440 | so after a successful pass the stored `ca-n` drains if and only if the metrics cluster's volume has a size, and it has a replica at least |
| Contents.CassandraSays | apps/cassandra.go:297-320 | where the fields of a Cassandra cluster end up: labels and annotations, image, pull policy, the four amounts, size and class of the claim, each with its default; at least one replica, exactly one if none is asked for, and otherwise the number asked for |
| Contents.CassandraEnvironment | apps/cassandra.go:158-196 | sixteen entries and then the user's, in order: which named entry carries the cluster's name, the data centre, the heap size and the Java options, and the two ports |
| Contents.ElasticSays | apps/elastic.go:185-205 | the same for Elasticsearch, whose labels and annotations are the server's |
| Contents.DashboardSays | apps/dashboard.go:209-225 | the same for the dashboard |
| Contents.ServerSays | apps/axon-server.go:157-183 | the same for the server; with metrics on its last two entries are CQL_HOSTS and CQL_LOCAL_DC |
| Contents.IngressSays | apps/dashboard.go:285-298 | there is an Ingress only if it is enabled; its labels, API version, class, secret and TLS hosts |
| Contents.ServicesSay | apps/cassandra.go:347-353 | whose labels and annotations each of the five Services carries |
| Contents.ServicesOffer | apps/axon-server.go:60-72 | the port numbers of each Service |
| Contents.WorkloadsListen | apps/cassandra.go:149-157 | the named ports of each workload |
| Contents.CqlArrives | apps/cassandra.go:109-111 | a Cassandra Service offers 9042, and what comes in there arrives at the container's port cql, 9042, which CASSANDRA_NATIVE_TRANSPORT_PORT names |
| Contents.AgentArrives | apps/cassandra.go:179-180 | the server's Service offers the port the agent is told, 1888, and it arrives at the server's agent port |
| Contents.NameTexts | apps/cassandra.go:161-178 | what the host names in the environment read like |
| Contents.PortedTexts | apps/dashboard.go:104 | and those with a port |
| Wiring.WiringIff | apps/cassandra.go:135-178 | after any pass that ran all its blocks, in any interleaving and whatever earlier specs have left stored: an endpoint named by any stored child of the resource resolves (a stored Service that offers the port and selects exactly one stored workload, which listens on it) if and only if it is not `as-metrics-n` and, where it is `ca-metrics-n`, that Service is stored; all resolve if and only if no metrics StatefulSet is stored; and every Service the spec asks for, the metrics one included, selects its own workload only and routes every port |
| Wiring.AllWiredIff | internal/controller/axonopscassandra_controller.go:171-188 | the same for any children on which the current spec has settled, however old the rest and the create-only Services are |
| Wiring.EndpointResolvesIff | apps/axon-server.go:159-161 | one endpoint at a time: CQL_HOSTS and the metrics cluster's own Service resolve, the agent's server does not |
| Wiring.MetricsAgentDangles | apps/cassandra.go:177-178 | the Service that the metrics cluster's agent names is never there, whatever is stored |
| Wiring.OnlyWorkload | apps/axon-server.go:58-59 | among the children of all resources a Service selects only the workload of its own name |
| Wiring.OwnServiceServes | apps/cassandra.go:97-111 | a stored Service and workload of a resource belong together, and every port, by number or by name, is one the container listens on |
| Wiring.ExecSourced | internal/controller/axonopscassandra_controller.go:156-476 | in all runs every stored child is what a block of one of the resources generates from some spec |
| Wiring.SourcedIsTraced | apps/elastic.go:58-59 | so it carries the labels of its key, and the key belongs to a resource |
| Wiring.SourcedIsPorted | apps/elastic.go:60-68 | and it has the ports of its block, whatever spec it was generated from |
| Network.EndpointsAreOwn | apps/dashboard.go:97-104 | the endpoints in every generated object are the resource's own Services, at ports they offer and their workloads listen on, but for the metrics agent's; the metrics Service is named by the metrics cluster and, with metrics on, by the server |
| Network.MetricsAreNamed | apps/axon-server.go:158-162 | those two names are really there |
| Network.ServicesRouted | apps/cassandra.go:149-157 | every port of every Service arrives at exactly one port of the container it selects, of the same number |
| Network.ServerEndpoints | apps/axon-server.go:96-161 | the server names exactly its own Service, Elasticsearch's at 9200 and, with metrics on, the metrics cluster's, whatever the user's environment |
| Network.CassandraEndpoints | apps/cassandra.go:135-196 | a Cassandra StatefulSet names exactly its own Service and the agent's server of the same name |
| Network.ElasticEndpoints | apps/elastic.go:92-131 | Elasticsearch names exactly its own Service |
| Network.DashboardEndpoints | apps/dashboard.go:101-117 | the dashboard names exactly the server's Service at 8080 |
| Network.IngressEndpoints | apps/dashboard.go:160-171 | the Ingress names no backend but the dashboard's Service at 3000 |
| Network.IngressRules | apps/dashboard.go:160-171 | every host gets one rule, at path `/` with type Prefix, whatever the spec asks for |
| Network.PathHonouredIff | apps/dashboard.go:164-165 | the path and path type asked for are honoured if and only if they are `/` and Prefix, or not given |
| ServerEnvironment.GenerateEnvironment | apps/axon-server.go:157-178 | for every backing array, offset, length and capacity: the environment is the user's list and the two metrics entries, and what the caller's slice shows is unchanged |
| ServerEnvironment.GenerateTwice | apps/axon-server.go:157-178 | a second pass over the same slice does not accumulate entries, nor disturb what the first generated |
| ServerEnvironment.ServerEnvSpelled | apps/axon-server.go:123-126 | the generated object's environment, written out, is the template's two entries and that list, entry by entry |
| GoHeap.Append | apps/axon-server.go:159-166 | the built-in append, in place within the capacity and into a new array beyond it |
| DeepCopy.CopyMap | api/v1beta1/zz_generated.deepcopy.go:61-67 | a map copied entry by entry in any order: equal, new, nil stays nil |
| DeepCopy.CopySlice | api/v1beta1/zz_generated.deepcopy.go:75-79 | a slice of plain values: equal, new, nil stays nil and empty stays empty |
| DeepCopy.CopyCassandra | api/v1beta1/zz_generated.deepcopy.go:57-81 | the copy shows the same value over new objects, no two references of it the same, and nothing old is written |
| DeepCopy.CopyServer | api/v1beta1/zz_generated.deepcopy.go:220-244 | the same for the server with its nested metrics cluster |
| DeepCopy.CopyElastic | api/v1beta1/zz_generated.deepcopy.go:272-282 | the same for elasticsearch |
| DeepCopy.CopyTls | api/v1beta1/zz_generated.deepcopy.go:331-337 | the same for the loop over the TLS entries, each with a slice of its own |
| DeepCopy.CopyIngress | api/v1beta1/zz_generated.deepcopy.go:310-338 | the same for an Ingress |
| DeepCopy.CopyDashboard | api/v1beta1/zz_generated.deepcopy.go:183-207 | the same for the dashboard |
| DeepCopy.CopyAxonOps | api/v1beta1/zz_generated.deepcopy.go:165-170 | the same for the three AxonOps components |
| DeepCopy.CopySpec | api/v1beta1/zz_generated.deepcopy.go:126-130 | the same for the spec |
| DeepCopy.CopyStatus | api/v1beta1/zz_generated.deepcopy.go:143-152 | the same for the status and its conditions |
| DeepCopy.CopyCustom | api/v1beta1/zz_generated.deepcopy.go:30-36 | the same for a whole custom resource |
| DeepCopy.CopyList | api/v1beta1/zz_generated.deepcopy.go:94-105 | the same for the list loop: every item in a piece of the heap of its own |
| DeepCopyObjects.DeepCopyCustom | api/v1beta1/zz_generated.deepcopy.go:38-46 | for every custom resource on the heap: nil for nil, otherwise a new struct in new objects, apart, showing the value the unchanged original shows |
| DeepCopyObjects.DeepCopyList | api/v1beta1/zz_generated.deepcopy.go:107-115 | the same for every list |
| DeepCopyLaws.ListShowsOne | api/v1beta1/zz_generated.deepcopy.go:94-105 | a list shows at most one value, so that a copy that shows the same is equal to its original |
| DeepCopyLaws.ListReads | api/v1beta1/zz_generated.deepcopy.go:94-105 | every list shows some value, so that the copy theorems apply to all inputs |
| DeepCopyLaws.ListApartShows | api/v1beta1/zz_generated.deepcopy.go:94-105 | what is apart can be read and copied like its original |
| DeepCopyLaws.SpecShowsOne | api/v1beta1/zz_generated.deepcopy.go:126-130 | a spec shows at most one value |
| DeepCopyLaws.SpecApartShows | api/v1beta1/zz_generated.deepcopy.go:126-130 | a copied spec can be read and copied again |
| StringLists.ContainsString | utils/utils.go:92-100 | true exactly when the string is in the list |
| StringLists.RemoveString | utils/utils.go:102-114 | the list without every occurrence of the string, the others in order |
| StringLists.AddThenRemove | internal/controller/axonopscassandra_controller.go:77-123 | appending an entry that is not there and removing it gives back the list |
| StringLists.WithoutTwice | utils/utils.go:102-114 | removing again changes nothing |
| Maps.StringMapsMatch | utils/utils.go:31-62 | true exactly when the maps agree after the ignored keys are dropped, in any iteration order and despite the early exits; nil equals empty |
| Maps.MatchBothWays | utils/utils.go:43-60 | the two one-way loops together decide that equality |
| Maps.IgnoringMore | utils/utils.go:31-62 | ignoring more keys never breaks a match |
| Maps.ByteMapsMatch | utils/utils.go:64-84 | true exactly when keys and bytes are equal, although one map is looped over |
| Maps.SortedKeysMapString | utils/utils.go:174-181 | the keys, each once, strictly increasing, in any iteration order |
| Maps.BelowIff | utils/utils.go:179 | the order of the sort: a proper prefix first, otherwise the smaller character at the first place that differs |
| Maps.EnumerationUnique | utils/utils.go:174-181 | there is only one such list |
| Maps.SecretHashString | utils/utils.go:141-149 | the digest of a text that is a function of the map alone |
| Maps.CreateFakeHash | utils/utils.go:151-172 | "" if any value fails to render, whichever is visited first; otherwise the hash of the rendered map |
| Maps.TwoEntries | utils/utils.go:141-145 | the hashed text of two entries: smaller key, its value, larger key, its value |
| Maps.HashInputCollides | utils/utils.go:143-145 | every map shares its hashed text with a different map |
| Maps.DeterminedIff | utils/utils.go:143-145 | among the maps with a given set of keys the text determines the map if and only if there is at most one key |
| Maps.SameShapeDetermines | utils/utils.go:143-145 | maps with the same keys and values of the same lengths have different texts unless they are equal |

## Left out

- Templates, sprig functions, YAML decoding and the unstructured conversion: library behaviour; a generator is a partial function to a structured object.
- Object details that carry no name, port or reference (probes, volume mounts, the init container, port protocols and labels, the rest of the dashboard's command line).
- Fields.SameWrittenIff: compares the values written into the templates' fields one by one; that YAML reads some different texts alike (quotes, escapes, line breaks), and that a user's label may repeat one of the template's, is not modelled.
- Field names of environment entries are not checked for duplicates: a user's entry may repeat one of the template's.
- The agent's port is an environment entry of its own in the source, and plain text here: no endpoint carries it.
- Events and log calls: no effect on the store.
- Watches, predicates and the work queue: only the retry of failed passes is assumed.
- The manager's start-up, flags, leader election and health checks in `cmd/main.go`.
- Kubernetes validation, immutable fields, scheduling and garbage collection: a rejected write is a failing call.
- `FindAllGroups`, `K8sSecretFound`, `MergeMap` and the headless Service generator: unused, library-bound or easy.
- The pointers of `DeepCopyInto`: a struct is a value there, so that an out pointer equal to the in pointer is not modelled.  `DeepCopyObject`, which only converts a pointer to an interface, and the `DeepCopy` wrappers of the inner structs are left out.
- Owner references, managed fields, timestamps and the list's continue token: the library's own deep copy; the metadata of a copied resource has its name, namespace, version, labels, annotations and finalizers.
- MD5 (RFC 1321) and the text of a rendered secret: parameters.
- Recovery.BoundedRecovery: asks for metrics off; what holds with metrics on is `MetricsRetry.MetricsDichotomy`.
- Progress.ProgressInAnyRun: asks that none of the pass's own Gets of children is stale, because a stale answer makes a pass skip an absent create-only Service.
- Safety.FinalizerSafety: covers the nine base children; the metrics objects outlive their resource (`MetricsBranch.MetricsObjectsStay`).
