/** When finalizer safety holds: exactly when no two resources are called n and metrics-n.
    And a run in which the finalizer comes and goes. */
module Exactness {
  import opened Types
  import opened Apps
  import opened Children
  import opened Api
  import opened StringLists
  import opened Reconcile
  import opened World
  import opened Safety
  import opened Convergence
  import opened Recovery
  import opened Interleaving

  predicate AllFine(faults: seq<Fault>) {
    forall i :: 0 <= i < |faults| ==> faults[i] == Fine
  }

  lemma {:induction false} FineIsQuiet(faults: seq<Fault>)
    requires AllFine(faults)
    ensures Quiet(Ticks(faults)) && Failures(Ticks(faults)) == 0
  {
    if faults != [] {
      FineIsQuiet(faults[1..]);
      assert Ticks(faults)[1..] == Ticks(faults[1..]);
    }
  }

  predicate Renders(g: Generator, k: CrKey, spec: Spec, q: Piece) {
    g(k, spec, q).Val? && g(k, Effective(spec), q).Val?
  }

  /** A user creates k with metrics on, and its first pass runs undisturbed. */
  function FirstPass(k: CrKey, spec: Spec, faults: seq<Fault>): seq<Action> {
    [UserCreate(k, spec, []), Begin(k)] + Calls(k, faults)
  }

  lemma CallsWithin(k: CrKey, faults: seq<Fault>)
    ensures forall a :: a in Calls(k, faults) ==> a.k == k
  {
  }

  /** A quiet pass over a new resource in an empty namespace. */
  lemma FreshPass(g: Generator, k: CrKey, spec: Spec, s: Store, script: seq<Tick>)
    requires k.name != "" && MetricsOn(spec) && forall q :: InPlan(spec, q) ==> Renders(g, k, spec, q)
    requires s.children == map[] && s.crs.Keys == {k} && !s.crs[k].deleting && s.crs[k].spec == spec
    requires Quiet(script) && Failures(script) == 0
    ensures var s' := Run(g, k, s, Reading, script).store;
            Target(k, MtSts) in s'.children && s'.crs.Keys == {k}
  {
    assert Ready(g, k, spec, s.children, 0) by {
      forall q | InPlan(spec, q) ensures BlockReady(g, k, spec, s.children, q) {
        assert Renders(g, k, spec, q);
      }
    }
    PassSucceedsIff(g, k, s, script);
    PassTowardsGoal(g, k, s, script);
    LiveGoal(g, k, s);
    assert Settled(g, k, spec, Goal(g, k, s).children, MtSts);
  }

  lemma FirstPassInstallsMetrics(g: Generator, k: CrKey, spec: Spec, faults: seq<Fault>)
    requires AllFine(faults) && Rank(Reading) <= |faults|
    requires k.name != "" && MetricsOn(spec) && forall q :: InPlan(spec, q) ==> Renders(g, k, spec, q)
    ensures var s := Exec(g, EMPTY, FirstPass(k, spec, faults)).store;
            Target(k, MtSts) in s.children && s.crs.Keys == {k}
  {
    var w := Created(k, spec);
    FineIsQuiet(faults);
    CreatedBy(g, k, spec, Calls(k, faults));
    CallsRun(g, w, k, faults);
    FreshPass(g, k, spec, w.store, Ticks(faults));
  }

  function Created(k: CrKey, spec: Spec): World {
    World(Store(map[k := Cr(1, false, [], spec)], map[], map[k := 1]), map[k := Reading])
  }

  lemma CreatedBy(g: Generator, k: CrKey, spec: Spec, acts: seq<Action>)
    ensures Exec(g, EMPTY, [UserCreate(k, spec, []), Begin(k)] + acts) == Exec(g, Created(k, spec), acts)
  {
    var a, b := UserCreate(k, spec, []), Begin(k);
    var w := Apply(g, EMPTY, a);
    assert w == World(Created(k, spec).store, map[]) by {
      assert map[][k := Cr(1, false, [], spec)] == map[k := Cr(1, false, [], spec)];
    }
    assert Apply(g, w, b) == Created(k, spec);
    assert Exec(g, Apply(g, w, b), []) == Apply(g, w, b);
    assert [a, b][1..] == [b] && [b][1..] == [];
    assert Exec(g, w, [b]) == Created(k, spec);
    ExecAppend(g, EMPTY, [a, b], acts);
  }

  /** If the names clash, there is a run after which a resource that does not exist has a child. */
  lemma ClashIsUnsafe(g: Generator, names: iset<CrKey>, spec: Spec, j: CrKey, k: CrKey, faults: seq<Fault>)
    requires AllFine(faults) && Rank(Reading) <= |faults|
    requires j in names && k in names && j.name != "" && MetricsClash(j, k)
    requires MetricsOn(spec) && forall q :: InPlan(spec, q) ==> Renders(g, j, spec, q)
    ensures Within(FirstPass(j, spec, faults), names) && !Safe(names, Exec(g, EMPTY, FirstPass(j, spec, faults)))
  {
    FirstPassInstallsMetrics(g, j, spec, faults);
    CallsWithin(j, faults);
    TargetsCollide(j, MtSts, k, CaSts);
    CassandraNames(j.name, j.name);
    assert Base(CaSts) && Target(k, CaSts) in Exec(g, EMPTY, FirstPass(j, spec, faults)).store.children;
  }

  /** Finalizer safety of all runs over a set of resources, if and only if their names do not clash. */
  lemma FinalizerSafetyIff(g: Generator, names: iset<CrKey>, spec: Spec)
    requires MetricsOn(spec) && forall k, q :: InPlan(spec, q) ==> Renders(g, k, spec, q)
    ensures (forall acts :: Within(acts, names) ==> Safe(names, Exec(g, EMPTY, acts))) <==> NoMetricsClash(names)
  {
    if NoMetricsClash(names) {
      forall acts | Within(acts, names) ensures Safe(names, Exec(g, EMPTY, acts)) {
        FinalizerSafety(g, names, acts);
      }
    } else {
      var j, k :| j in names && k in names && j.name != "" && MetricsClash(j, k);
      ClashIsUnsafe(g, names, spec, j, k, seq(Rank(Reading), i => Fine));
    }
  }

  // ---------- a run that adds the finalizer and removes it

  /** A user creates k, and its first pass adds the finalizer. */
  function Adding(k: CrKey, spec: Spec, finalizers: seq<string>): seq<Action> {
    [UserCreate(k, spec, finalizers), Begin(k), Advance(k, Fine), Advance(k, Fine)]
  }

  /** The user deletes it, the operator restarts, and a pass tears down. */
  function Dropping(k: CrKey, faults: seq<Fault>): seq<Action> {
    [UserDelete(k), Crash(k), Begin(k)] + Calls(k, faults)
  }

  function Held(k: CrKey, spec: Spec, finalizers: seq<string>, rv: nat, deleting: bool): Store {
    Store(map[k := Cr(rv, deleting, finalizers, spec)], map[], map[k := rv])
  }

  lemma ExecStep(g: Generator, w: World, a: Action, acts: seq<Action>)
    ensures Exec(g, w, [a] + acts) == Exec(g, Apply(g, w, a), acts)
  {
    assert ([a] + acts)[1..] == acts;
  }

  lemma Added(g: Generator, k: CrKey, spec: Spec, finalizers: seq<string>)
    requires FINALIZER !in finalizers
    ensures Exec(g, EMPTY, Adding(k, spec, finalizers)).store == Held(k, spec, finalizers + [FINALIZER], 2, false)
  {
    var a, b, c := UserCreate(k, spec, finalizers), Begin(k), Advance(k, Fine);
    var w1 := World(Held(k, spec, finalizers, 1, false), map[]);
    assert Apply(g, EMPTY, a) == w1;
    var w2 := Apply(g, w1, b);
    var w3 := Apply(g, w2, c);
    assert w3.passes[k] == Marking(Cr(1, false, finalizers, spec)) && w3.store == w1.store;
    var w4 := Apply(g, w3, c);
    assert w4.store == Held(k, spec, finalizers + [FINALIZER], 2, false);
    assert Adding(k, spec, finalizers) == [a] + ([b] + ([c] + ([c] + [])));
    ExecStep(g, EMPTY, a, [b] + ([c] + ([c] + [])));
    ExecStep(g, w1, b, [c] + ([c] + []));
    ExecStep(g, w2, c, [c] + []);
    ExecStep(g, w3, c, []);
  }

  lemma Dropped(g: Generator, k: CrKey, spec: Spec, finalizers: seq<string>, w: World, faults: seq<Fault>)
    requires FINALIZER !in finalizers && finalizers != [] && AllFine(faults) && Rank(Reading) <= |faults|
    requires w.store == Held(k, spec, finalizers + [FINALIZER], 2, false)
    ensures var s := Exec(g, w, Dropping(k, faults)).store;
            k in s.crs && s.crs[k].finalizers == finalizers
  {
    var a, b, c := UserDelete(k), Crash(k), Begin(k);
    var s := Held(k, spec, finalizers + [FINALIZER], 3, true);
    var w1 := Apply(g, w, a);
    assert w1.store == s;
    var w3 := Apply(g, Apply(g, w1, b), c);
    assert w3.store == s && w3.passes[k] == Reading;
    assert Dropping(k, faults) == [a] + ([b] + ([c] + Calls(k, faults)));
    ExecStep(g, w, a, [b] + ([c] + Calls(k, faults)));
    ExecStep(g, w1, b, [c] + Calls(k, faults));
    ExecStep(g, Apply(g, w1, b), c, Calls(k, faults));
    FineIsQuiet(faults);
    CallsRun(g, w3, k, faults);
    PassTowardsGoal(g, k, s, Ticks(faults));
    TeardownGoal(g, k, s);
    AddThenRemove(finalizers, FINALIZER);
  }

  /** The run is one of those that FinalizerRoundTrip speaks of: the finalizer is there in
      the middle, and at its end the list is the one the user wrote. */
  lemma FinalizerComesAndGoes(g: Generator, k: CrKey, spec: Spec, finalizers: seq<string>, faults: seq<Fault>)
    requires FINALIZER !in finalizers && finalizers != [] && AllFine(faults) && Rank(Reading) <= |faults|
    ensures var all := Adding(k, spec, finalizers) + Dropping(k, faults);
            var before, middle, after :=
              Exec(g, EMPTY, all[..1]).store, Exec(g, EMPTY, all[..4]).store, Exec(g, EMPTY, all).store;
            && (forall a :: a in all[1..] ==> KeepsOthers(a, k, finalizers))
            && Guarded(middle, k)
            && k in before.crs && before.crs[k].finalizers == finalizers
            && k in after.crs && after.crs[k].finalizers == finalizers
  {
    hide Dropping, KeepsOthers;
    var adding, dropping := Adding(k, spec, finalizers), Dropping(k, faults);
    var all := adding + dropping;
    Added(g, k, spec, finalizers);
    Dropped(g, k, spec, finalizers, Exec(g, EMPTY, adding), faults);
    ExecAppend(g, EMPTY, adding, dropping);
    assert all[..4] == adding && all[..1] == [adding[0]] + [];
    ExecStep(g, EMPTY, adding[0], []);
    RoundTripKeepsOthers(k, spec, finalizers, faults);
  }

  lemma RoundTripKeepsOthers(k: CrKey, spec: Spec, finalizers: seq<string>, faults: seq<Fault>)
    ensures forall a :: a in (Adding(k, spec, finalizers) + Dropping(k, faults))[1..] ==> KeepsOthers(a, k, finalizers)
  {
    OnlyCalls(k, faults);
    var adding, dropping := Adding(k, spec, finalizers), Dropping(k, faults);
    assert (adding + dropping)[1..] == adding[1..] + dropping;
    forall a | a in (adding + dropping)[1..] ensures KeepsOthers(a, k, finalizers) {
      assert a in adding[1..] || a in dropping;
    }
  }

  lemma OnlyCalls(k: CrKey, faults: seq<Fault>)
    ensures forall a :: a in Calls(k, faults) ==> a.Advance?
  {
  }
}
