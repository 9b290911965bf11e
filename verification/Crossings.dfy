/** When two resources can run side by side: the name condition of NonInterference is exact.
    Where it fails there is a run, from the empty world, that no serial order matches. */
module Crossings {
  import opened Types
  import opened Apps
  import opened Children
  import opened Api
  import opened Reconcile
  import opened World
  import opened Convergence
  import opened Exactness
  import opened Independence

  predicate Among(acts: seq<Action>, k: CrKey, j: CrKey) {
    forall a :: a in acts ==> a.k == k || a.k == j
  }

  predicate SerialAt(g: Generator, w: World, acts: seq<Action>, k: CrKey, j: CrKey) {
    || Exec(g, w, acts) == Exec(g, w, Only(k, acts) + Only(j, acts))
    || Exec(g, w, acts) == Exec(g, w, Only(j, acts) + Only(k, acts))
  }

  /** At every point of every run of the two resources: whatever they do from there, in
      whatever order, one of the two serial orders does the same. */
  ghost predicate Serialisable(g: Generator, k: CrKey, j: CrKey) {
    forall before, acts :: Among(before, k, j) && Among(acts, k, j) ==> SerialAt(g, Exec(g, EMPTY, before), acts, k, j)
  }

  lemma OthersIsOnly(acts: seq<Action>, k: CrKey, j: CrKey)
    requires Among(acts, k, j) && k != j
    ensures Others(k, acts) == Only(j, acts)
  {
    if acts != [] {
      assert acts[0] in acts;
      OthersIsOnly(acts[1..], k, j);
    }
  }

  // ---------- getting to the crossing: single calls without faults

  predicate OnlyOf(k: CrKey, acts: seq<Action>) {
    forall a :: a in acts ==> a.k == k
  }

  lemma Looks(g: Generator, w: World, k: CrKey, p: Pass)
    requires k in w.passes && w.passes[k] == p && p.Looking?
    ensures Apply(g, w, Advance(k, Fine))
         == w.(passes := w.passes[k := AfterLook(g, k, p.cr, p.piece, Lookup(k, p.piece) in w.store.children)])
  {
  }

  lemma Writes(g: Generator, w: World, k: CrKey, p: Pass)
    requires k in w.passes && w.passes[k] == p && p.Writing?
    ensures var c, key := w.store.children, KeyOf(p.manifest);
            Apply(g, w, Advance(k, Fine))
            == if p.found <==> key in c
               then World(w.store.(children := c[key := p.manifest]), w.passes[k := NextBlock(p.cr, p.piece)])
               else World(w.store, w.passes[k := Stopped(true)])
  {
  }

  lemma Deletes(g: Generator, w: World, k: CrKey, p: Pass)
    requires k in w.passes && w.passes[k] == p && p.Removing? && p.todo != []
    ensures Apply(g, w, Advance(k, Fine))
         == World(w.store.(children := w.store.children - {p.todo[0]}), w.passes[k := Removing(p.cr, p.todo[1..])])
  {
    if p.todo[0] !in w.store.children {
      assert w.store.children - {p.todo[0]} == w.store.children;
    }
  }

  lemma TwoActions(g: Generator, w: World, a: Action, b: Action)
    ensures Exec(g, w, [a, b]) == Apply(g, Apply(g, w, a), b)
  {
    assert [a, b][1..] == [b] && [b][1..] == [];
    assert Exec(g, Apply(g, w, a), [b]) == Apply(g, Apply(g, w, a), b);
  }

  /** The block can be run from scratch. */
  predicate Blank(g: Generator, k: CrKey, spec: Spec, c: ChildMap, q: Piece) {
    Wanted(g, k, spec, q).Val? && Lookup(k, q) !in c && Target(k, q) !in c
  }

  /** A look-up and a Create. */
  lemma BlankBlock(g: Generator, w: World, k: CrKey, spec: Spec, cr: Cr, q: Piece)
    requires k in w.passes && w.passes[k] == Looking(cr, q) && InPlan(spec, q) && SpecAt(spec, cr.spec, q)
    requires Blank(g, k, spec, w.store.children, q)
    ensures var m := Wanted(g, k, spec, q).value;
            Exec(g, w, [Advance(k, Fine), Advance(k, Fine)])
            == World(w.store.(children := w.store.children[Target(k, q) := m]),
                     w.passes[k := NextBlock(Adjusted(cr, q), q)])
  {
    hide Apply;
    var a, m := Advance(k, Fine), Wanted(g, k, spec, q).value;
    GeneratesWanted(g, k, spec, cr, q);
    Looks(g, w, k, w.passes[k]);
    var p := Writing(Adjusted(cr, q), q, false, m);
    assert LabelledBy(g, k, Effective(spec), q);
    Writes(g, Apply(g, w, a), k, p);
    TwoActions(g, w, a, a);
    assert w.passes[k := p][k := NextBlock(p.cr, q)] == w.passes[k := NextBlock(p.cr, q)];
  }

  /** Block after block, up to the look-up of `target`. */
  ghost predicate Arrived(k: CrKey, spec: Spec, w: World, w': World, cr: Cr, target: Piece) {
    && w'.store == w.store.(children := w'.store.children)
    && w'.passes == w.passes[k := Looking(cr, target)]
    && SpecAt(spec, cr.spec, target)
    && forall key :: key in w'.store.children ==>
         key in w.store.children || exists x :: Ord(x) < Ord(target) && key == Target(k, x)
  }

  lemma {:induction false} ToBlock(g: Generator, w: World, k: CrKey, spec: Spec, cr: Cr, q: Piece, target: Piece)
    returns (acts: seq<Action>, cr': Cr)
    requires k in w.passes && w.passes[k] == Looking(cr, q) && SpecAt(spec, cr.spec, q)
    requires InPlan(spec, q) && InPlan(spec, target) && Ord(q) <= Ord(target)
    requires forall x :: InPlan(spec, x) && Ord(q) <= Ord(x) < Ord(target) ==> Blank(g, k, spec, w.store.children, x)
    ensures OnlyOf(k, acts) && Arrived(k, spec, w, Exec(g, w, acts), cr', target)
    decreases Ord(target) - Ord(q)
  {
    if q == target {
      acts, cr' := [], cr;
      assert w.passes[k := w.passes[k]] == w.passes;
    } else {
      OrdApart(q, target);
      NextIsNext(spec, q);
      GeneratesWanted(g, k, spec, cr, q);
      var step := [Advance(k, Fine), Advance(k, Fine)];
      BlankBlock(g, w, k, spec, cr, q);
      var w1, next := Exec(g, w, step), Next(spec, q).value;
      forall x | InPlan(spec, x) && Ord(next) <= Ord(x) < Ord(target) ensures Blank(g, k, spec, w1.store.children, x) {
        TargetsDiffer(k, q, x);
        LookupApart(k, q, x);
      }
      var rest;
      rest, cr' := ToBlock(g, w1, k, spec, Adjusted(cr, q), next, target);
      acts := step + rest;
      ExecAppend(g, w, step, rest);
      ArrivedLater(k, spec, w, w1, Exec(g, w1, rest), cr', q, target);
    }
  }

  lemma ArrivedLater(k: CrKey, spec: Spec, w: World, w1: World, w': World, cr: Cr, q: Piece, target: Piece)
    requires Arrived(k, spec, w1, w', cr, target) && Ord(q) < Ord(target)
    requires w1.store == w.store.(children := w1.store.children) && w1.passes.Keys == w.passes.Keys + {k}
    requires forall j :: j in w.passes && j != k ==> w1.passes[j] == w.passes[j]
    requires forall key :: key in w1.store.children ==> key in w.store.children || key == Target(k, q)
    ensures Arrived(k, spec, w, w', cr, target)
  {
    assert w1.passes[k := Looking(cr, target)] == w.passes[k := Looking(cr, target)];
  }

  // ---------- getting to the crossing: a new resource's first pass

  /** A user creates k, and its first pass adds the finalizer. */
  function Opening(k: CrKey, spec: Spec): seq<Action> {
    Adding(k, spec, [])
  }

  predicate Opened(k: CrKey, spec: Spec, w: World, w': World, cr: Cr) {
    && w'.store.children == w.store.children && w'.passes == w.passes[k := Looking(cr, EsSts)]
    && cr.spec == spec && k in w'.store.crs && w'.store.crs[k] == cr && !cr.deleting && cr.finalizers == [FINALIZER]
  }

  lemma Opens(g: Generator, w: World, k: CrKey, spec: Spec) returns (cr: Cr)
    requires k.name != "" && k !in w.store.crs && k !in w.passes
    ensures OnlyOf(k, Opening(k, spec)) && Opened(k, spec, w, Exec(g, w, Opening(k, spec)), cr)
  {
    hide Exec, Apply;
    var rv := Mark(w.store, k);
    cr := Cr(rv + 2, false, [FINALIZER], spec);
    var made, marked := [UserCreate(k, spec, []), Begin(k)], [Advance(k, Fine), Advance(k, Fine)];
    Makes(g, w, k, spec);
    var w2 := Exec(g, w, made);
    Marks(g, w2, k, Cr(rv + 1, false, [], spec));
    assert Opening(k, spec) == made + marked;
    ExecAppend(g, w, made, marked);
    assert w2.passes[k := Looking(cr, EsSts)] == w.passes[k := Looking(cr, EsSts)];
  }

  lemma Makes(g: Generator, w: World, k: CrKey, spec: Spec)
    requires k !in w.store.crs && k !in w.passes
    ensures var w' := Exec(g, w, [UserCreate(k, spec, []), Begin(k)]);
            && w'.store.children == w.store.children && w'.passes == w.passes[k := Reading]
            && k in w'.store.crs && w'.store.crs[k] == Cr(Mark(w.store, k) + 1, false, [], spec)
            && Mark(w'.store, k) == Mark(w.store, k) + 1
  {
    TwoActions(g, w, UserCreate(k, spec, []), Begin(k));
  }

  /** The Get, and the Update that adds the finalizer. */
  lemma Marks(g: Generator, w: World, k: CrKey, cr: Cr)
    requires k in w.passes && w.passes[k] == Reading && k.name != "" && k in w.store.crs && w.store.crs[k] == cr
    requires !cr.deleting && cr.finalizers == [] && Mark(w.store, k) == cr.rv
    ensures var cr' := Cr(cr.rv + 1, false, [FINALIZER], cr.spec);
            var w' := Exec(g, w, [Advance(k, Fine), Advance(k, Fine)]);
            && w'.store.children == w.store.children && w'.passes == w.passes[k := Looking(cr', EsSts)]
            && k in w'.store.crs && w'.store.crs[k] == cr'
  {
    var c := Advance(k, Fine);
    var w1 := Apply(g, w, c);
    assert w1 == World(w.store, w.passes[k := Marking(cr)]);
    assert [] + [FINALIZER] == [FINALIZER];
    TwoActions(g, w, c, c);
  }

  // ---------- two resources on the way

  lemma {:induction false} OthersAgree(g: Generator, w: World, acts: seq<Action>, j: CrKey, k: CrKey)
    requires OnlyOf(j, acts) && k != j
    ensures Agree(w, Exec(g, w, acts), k)
    decreases |acts|
  {
    if acts != [] {
      assert acts[0] in acts;
      OtherResources(g, w, acts[0], k);
      OthersAgree(g, Apply(g, w, acts[0]), acts[1..], j, k);
    }
  }

  ghost predicate AllRender(g: Generator, k: CrKey, spec: Spec) {
    forall q :: InPlan(spec, q) ==> Renders(g, k, spec, q)
  }

  /** j is about to look up its main Cassandra StatefulSet, k has just begun, and of the
      children only those of j's earlier blocks are there. */
  ghost predicate BothOpen(k: CrKey, j: CrKey, spec: Spec, w: World, crk: Cr, crj: Cr) {
    && k in w.passes && w.passes[k] == Looking(crk, EsSts) && crk.spec == spec
    && k in w.store.crs && w.store.crs[k] == crk && !crk.deleting && crk.finalizers == [FINALIZER]
    && j in w.passes && w.passes[j] == Looking(crj, CaSts) && SpecAt(spec, crj.spec, CaSts)
    && forall key :: key in w.store.children ==> exists x :: Ord(x) < Ord(CaSts) && key == Target(j, x)
  }

  lemma BothBegin(g: Generator, k: CrKey, j: CrKey, spec: Spec) returns (before: seq<Action>, crk: Cr, crj: Cr)
    requires k != j && k.name != "" && j.name != "" && AllRender(g, j, spec)
    ensures Among(before, k, j) && BothOpen(k, j, spec, Exec(g, EMPTY, before), crk, crj)
  {
    hide Exec;
    var first := Opens(g, EMPTY, j, spec);
    var w1 := Exec(g, EMPTY, Opening(j, spec));
    forall x | InPlan(spec, x) ensures Blank(g, j, spec, w1.store.children, x) {
      assert Renders(g, j, spec, x);
    }
    var walk;
    walk, crj := ToBlock(g, w1, j, spec, first, EsSts, CaSts);
    var w2 := Exec(g, w1, walk);
    ExecAppend(g, EMPTY, Opening(j, spec), walk);
    OthersAgree(g, EMPTY, Opening(j, spec) + walk, j, k);
    crk := Opens(g, w2, k, spec);
    before := Opening(j, spec) + walk + Opening(k, spec);
    ExecAppend(g, EMPTY, Opening(j, spec) + walk, Opening(k, spec));
  }

  // ---------- a metrics- name: both create the same object

  /** j is about to look up what k, which has found nothing under ca-mt-n, is about to create. */
  predicate AtMetrics(g: Generator, k: CrKey, j: CrKey, w: World) {
    && k in w.passes && w.passes[k].Writing? && !w.passes[k].found && KeyOf(w.passes[k].manifest) == Target(j, CaSts)
    && j in w.passes && w.passes[j].Looking? && w.passes[j].piece == CaSts && g(j, w.passes[j].cr.spec, CaSts).Val?
    && Target(j, CaSts) !in w.store.children
  }

  lemma KeysOfBoth(k: CrKey, j: CrKey, x: Piece, y: Piece)
    requires MetricsClash(k, j) && k.name != "" && Ord(y) < Ord(CaSts) && Ord(x) < Ord(MtSts)
    ensures Target(k, x) != Target(j, y) && Target(k, x) != Target(j, CaSts) && Target(j, y) != Target(j, CaSts)
    ensures Lookup(k, MtSts) != Target(j, y) && Lookup(k, MtSts) != Target(k, x)
  {
    TargetsCollide(k, x, j, y);
    TargetsCollide(k, x, j, CaSts);
    TargetsDiffer(j, y, CaSts);
    LookupApart(k, x, MtSts);
    CassandraNames(k.name, k.name);
    MtKeysCollide(k, j, y);
  }

  lemma ToMetrics(g: Generator, k: CrKey, j: CrKey, spec: Spec, w: World, crk: Cr, crj: Cr) returns (acts: seq<Action>)
    requires BothOpen(k, j, spec, w, crk, crj) && MetricsClash(k, j) && k.name != "" && MetricsOn(spec)
    requires AllRender(g, k, spec) && AllRender(g, j, spec)
    ensures OnlyOf(k, acts) && AtMetrics(g, k, j, Exec(g, w, acts))
  {
    hide Exec;
    CassandraNames(k.name, k.name);
    forall x | InPlan(spec, x) && Ord(x) < Ord(MtSts) ensures Blank(g, k, spec, w.store.children, x) {
      assert Renders(g, k, spec, x);
      forall y | Ord(y) < Ord(CaSts) ensures Target(k, x) != Target(j, y) { KeysOfBoth(k, j, x, y); }
    }
    var walk, cr := ToBlock(g, w, k, spec, crk, EsSts, MtSts);
    var w1 := Exec(g, w, walk);
    acts := walk + [Advance(k, Fine)];
    ExecAppend(g, w, walk, [Advance(k, Fine)]);
    LastLook(g, k, j, spec, w1, cr);
  }

  lemma LastLook(g: Generator, k: CrKey, j: CrKey, spec: Spec, w: World, cr: Cr)
    requires MetricsClash(k, j) && k.name != "" && MetricsOn(spec) && AllRender(g, k, spec) && AllRender(g, j, spec)
    requires k in w.passes && w.passes[k] == Looking(cr, MtSts) && SpecAt(spec, cr.spec, MtSts)
    requires j in w.passes && w.passes[j].Looking? && w.passes[j].piece == CaSts &&
             SpecAt(spec, w.passes[j].cr.spec, CaSts)
    requires forall key :: key in w.store.children ==>
               (exists y :: Ord(y) < Ord(CaSts) && key == Target(j, y)) ||
               exists x :: Ord(x) < Ord(MtSts) && key == Target(k, x)
    ensures AtMetrics(g, k, j, Exec(g, w, [Advance(k, Fine)]))
  {
    CassandraNames(k.name, k.name);
    forall x, y | Ord(y) < Ord(CaSts) && Ord(x) < Ord(MtSts)
      ensures Lookup(k, MtSts) != Target(j, y) && Lookup(k, MtSts) != Target(k, x)
      ensures Target(j, CaSts) != Target(j, y) && Target(j, CaSts) != Target(k, x) {
      KeysOfBoth(k, j, x, y);
    }
    assert Ord(EsSts) < Ord(MtSts);
    assert Lookup(k, MtSts) !in w.store.children && Target(j, CaSts) !in w.store.children;
    assert Renders(g, k, spec, MtSts) && Renders(g, j, spec, CaSts);
    GeneratesWanted(g, k, spec, cr, MtSts);
    GeneratesWanted(g, j, spec, w.passes[j].cr, CaSts);
    Looks(g, w, k, w.passes[k]);
    assert LabelledBy(g, k, Effective(spec), MtSts);
    TargetsCollide(k, MtSts, j, CaSts);
    assert [Advance(k, Fine)][1..] == [];
    assert Exec(g, w, [Advance(k, Fine)]) == Apply(g, w, Advance(k, Fine));
  }

  /** j looks it up, k creates it, and j's own Create fails; in both serial orders j gets on. */
  lemma CreatesCross(g: Generator, k: CrKey, j: CrKey, w: World)
    requires k != j && AtMetrics(g, k, j, w)
    ensures var a, b := Advance(j, Fine), Advance(k, Fine);
            && Apply(g, Apply(g, Apply(g, w, a), b), a).passes[j] == Stopped(true)
            && Apply(g, Apply(g, Apply(g, w, b), a), a).passes[j].Looking?
            && Apply(g, Apply(g, Apply(g, w, a), a), b).passes[j].Looking?
  {
    hide Apply;
    var a, b, cr := Advance(j, Fine), Advance(k, Fine), w.passes[j].cr;
    var mj := g(j, cr.spec, CaSts).value;
    assert LabelledBy(g, j, cr.spec, CaSts);
    var w1, w2 := Apply(g, w, a), Apply(g, w, b);
    Looks(g, w, j, w.passes[j]);
    Writes(g, w1, k, w.passes[k]);
    Writes(g, Apply(g, w1, b), j, Writing(cr, CaSts, false, mj));
    Writes(g, w, k, w.passes[k]);
    Looks(g, w2, j, w.passes[j]);
    Writes(g, Apply(g, w2, a), j, Writing(cr, CaSts, true, mj));
    Writes(g, w1, j, Writing(cr, CaSts, false, mj));
    Writes(g, Apply(g, w1, a), k, w.passes[k]);
  }

  lemma ThreeActions(g: Generator, w: World, a: Action, b: Action, c: Action)
    ensures Exec(g, w, [a, b, c]) == Apply(g, Apply(g, Apply(g, w, a), b), c)
  {
    assert [a, b, c][1..] == [b, c];
    TwoActions(g, Apply(g, w, a), b, c);
  }

  lemma OnlyAppend(k: CrKey, x: seq<Action>, y: seq<Action>)
    ensures Only(k, x + y) == Only(k, x) + Only(k, y)
  {
    if x == [] {
      assert x + y == y;
    } else {
      assert (x + y)[1..] == x[1..] + y;
      OnlyAppend(k, x[1..], y);
    }
  }

  lemma OnlyOwn(k: CrKey, j: CrKey, acts: seq<Action>)
    requires OnlyOf(j, acts)
    ensures Only(k, acts) == if k == j then acts else []
  {
    if acts != [] {
      assert acts[0] in acts;
      OnlyOwn(k, j, acts[1..]);
    }
  }

  /** The serial orders of j's x, k's y and j's z. */
  lemma SerialOrders(k: CrKey, j: CrKey, x: seq<Action>, y: seq<Action>, z: seq<Action>)
    requires k != j && OnlyOf(j, x) && OnlyOf(k, y) && OnlyOf(j, z)
    ensures Only(k, x + y + z) == y && Only(j, x + y + z) == x + z && Among(x + y + z, k, j)
  {
    hide Only;
    OnlyAppend(k, x + y, z);
    OnlyAppend(k, x, y);
    OnlyAppend(j, x + y, z);
    OnlyAppend(j, x, y);
    OnlyOwn(k, j, x);
    OnlyOwn(k, k, y);
    OnlyOwn(k, j, z);
    OnlyOwn(j, j, x);
    OnlyOwn(j, k, y);
    OnlyOwn(j, j, z);
  }

  /** A run whose last actions match neither serial order. */
  lemma NotSerialisable(g: Generator, k: CrKey, j: CrKey, before: seq<Action>,
                        x: seq<Action>, y: seq<Action>, z: seq<Action>)
    requires k != j && Among(before, k, j) && OnlyOf(j, x) && OnlyOf(k, y) && OnlyOf(j, z)
    requires var w := Exec(g, EMPTY, before);
             Exec(g, w, x + y + z) != Exec(g, w, y + (x + z)) && Exec(g, w, x + y + z) != Exec(g, w, x + z + y)
    ensures !Serialisable(g, k, j)
  {
    SerialOrders(k, j, x, y, z);
    assert !SerialAt(g, Exec(g, EMPTY, before), x + y + z, k, j);
  }

  lemma MetricsClashCrosses(g: Generator, k: CrKey, j: CrKey, spec: Spec)
    requires MetricsClash(k, j) && k.name != "" && MetricsOn(spec) && AllRender(g, k, spec) && AllRender(g, j, spec)
    ensures !Serialisable(g, k, j)
  {
    hide Apply, Exec, AtMetrics, BothOpen;
    CassandraNames(k.name, k.name);
    var open, crk, crj := BothBegin(g, k, j, spec);
    var more := ToMetrics(g, k, j, spec, Exec(g, EMPTY, open), crk, crj);
    ExecAppend(g, EMPTY, open, more);
    var w := Exec(g, EMPTY, open + more);
    var a, b := Advance(j, Fine), Advance(k, Fine);
    CreatesCross(g, k, j, w);
    ThreeActions(g, w, a, b, a);
    ThreeActions(g, w, b, a, a);
    ThreeActions(g, w, a, a, b);
    assert [a] + [b] + [a] == [a, b, a] && [b] + ([a] + [a]) == [b, a, a] && [a] + [a] + [b] == [a, a, b];
    NotSerialisable(g, k, j, open + more, [a], [b], [a]);
  }

  // ---------- an mt- name: one tears down what the other creates

  lemma {:induction false} NamesToKeysAt(k: CrKey, names: seq<string>, i: nat)
    requires i < |names|
    ensures |NamesToKeys(k, names)| >= 2 * i + 2
    ensures NamesToKeys(k, names)[2 * i] == Key(StatefulSets, k.ns, names[i])
    ensures NamesToKeys(k, names)[2 * i + 1] == Key(Services, k.ns, names[i])
  {
    var pair, rest := [Key(StatefulSets, k.ns, names[0]), Key(Services, k.ns, names[0])], NamesToKeys(k, names[1..]);
    assert NamesToKeys(k, names) == pair + rest;
    if i > 0 {
      NamesToKeysAt(k, names[1..], i - 1);
      assert (pair + rest)[2 * i] == rest[2 * (i - 1)] && (pair + rest)[2 * i + 1] == rest[2 * (i - 1) + 1];
    }
  }

  /** The seventh and eighth keys of the teardown are those called ca-mt-n. */
  lemma MtKeysInTeardown(k: CrKey, j: CrKey, spec: Spec)
    requires MtClash(k, j) && MetricsOn(spec)
    ensures var all := Teardown(k, spec);
            |all| > 8 && all[6] == Target(j, CaSts) && all[7] == Target(j, CaSvc)
  {
    var names := StatefulSetNames(k, spec);
    NamesToKeysAt(k, names, 3);
    CassandraNames(k.name, k.name);
    assert names[3] == "ca-mt-" + k.name == "ca-" + j.name;
  }

  /** Some calls of a teardown. */
  lemma {:induction false} TearsOn(g: Generator, w: World, k: CrKey, cr: Cr, todo: seq<Key>, n: nat)
    returns (acts: seq<Action>)
    requires k in w.passes && w.passes[k] == Removing(cr, todo) && n <= |todo|
    ensures OnlyOf(k, acts)
    ensures var w' := Exec(g, w, acts);
            && w'.passes == w.passes[k := Removing(cr, todo[n..])]
            && forall key :: key in w'.store.children ==> key in w.store.children
    decreases n
  {
    if n == 0 {
      acts := [];
      assert w.passes[k := w.passes[k]] == w.passes;
    } else {
      var a := Advance(k, Fine);
      Deletes(g, w, k, w.passes[k]);
      var w1 := Apply(g, w, a);
      var rest := TearsOn(g, w1, k, cr, todo[1..], n - 1);
      acts := [a] + rest;
      ExecStep(g, w, a, rest);
      assert todo[1..][n - 1..] == todo[n..];
      assert w.passes[k := Removing(cr, todo[1..])][k := Removing(cr, todo[n..])]
          == w.passes[k := Removing(cr, todo[n..])];
    }
  }

  /** j is about to look up its StatefulSet, and k about to delete it and its Service; neither is there. */
  predicate AtTeardown(g: Generator, k: CrKey, j: CrKey, spec: Spec, w: World) {
    && k in w.passes && w.passes[k].Removing? && |w.passes[k].todo| >= 2
    && w.passes[k].todo[0] == Target(j, CaSts) && w.passes[k].todo[1] == Target(j, CaSvc)
    && j in w.passes && w.passes[j].Looking? && w.passes[j].piece == CaSts && SpecAt(spec, w.passes[j].cr.spec, CaSts)
    && Blank(g, j, spec, w.store.children, CaSts) && Blank(g, j, spec, w.store.children, CaSvc)
  }

  /** The user deletes k, the operator restarts, and a pass finds it being deleted. */
  function Closing(k: CrKey): seq<Action> {
    [UserDelete(k), Crash(k), Begin(k), Advance(k, Fine)]
  }

  lemma Closes(g: Generator, w: World, k: CrKey, cr: Cr) returns (cr': Cr)
    requires k in w.store.crs && w.store.crs[k] == cr && cr.finalizers == [FINALIZER] && !cr.deleting
    ensures OnlyOf(k, Closing(k)) && cr'.spec == cr.spec
    ensures var w' := Exec(g, w, Closing(k));
            w'.passes == w.passes[k := Removing(cr', Teardown(k, cr.spec))] && w'.store.children == w.store.children
  {
    hide Teardown;
    var a, b, c, d := UserDelete(k), Crash(k), Begin(k), Advance(k, Fine);
    var w1 := Apply(g, w, a);
    cr' := w1.store.crs[k];
    assert cr' == cr.(deleting := true, rv := Mark(w.store, k) + 1);
    var w3 := Apply(g, Apply(g, w1, b), c);
    assert w3.passes[k] == Reading && w3.store == w1.store;
    var w4 := Apply(g, w3, d);
    assert w4.passes == w.passes[k := Removing(cr', Teardown(k, cr.spec))];
    TwoActions(g, w, a, b);
    TwoActions(g, Apply(g, w1, b), c, d);
    assert Closing(k) == [a, b] + [c, d];
    ExecAppend(g, w, [a, b], [c, d]);
  }

  lemma ToTeardown(g: Generator, k: CrKey, j: CrKey, spec: Spec, w: World, crk: Cr, crj: Cr) returns (acts: seq<Action>)
    requires BothOpen(k, j, spec, w, crk, crj) && MtClash(k, j) && MetricsOn(spec) && AllRender(g, j, spec)
    ensures OnlyOf(k, acts) && AtTeardown(g, k, j, spec, Exec(g, w, acts))
  {
    hide Exec, Teardown;
    CassandraNames(k.name, k.name);
    MtKeysInTeardown(k, j, spec);
    var cr := Closes(g, w, k, crk);
    var w1 := Exec(g, w, Closing(k));
    var deletes := TearsOn(g, w1, k, cr, Teardown(k, spec), 6);
    acts := Closing(k) + deletes;
    ExecAppend(g, w, Closing(k), deletes);
    forall x | Ord(x) < Ord(CaSts) ensures Target(j, x) != Target(j, CaSts) && Target(j, x) != Target(j, CaSvc) {
      TargetsDiffer(j, x, CaSts);
      TargetsDiffer(j, x, CaSvc);
    }
    assert Renders(g, j, spec, CaSts) && Renders(g, j, spec, CaSvc);
  }

  /** j creates its Service or StatefulSet from scratch. */
  lemma CreatesOne(g: Generator, w: World, j: CrKey, spec: Spec, q: Piece)
    requires j in w.passes && w.passes[j].Looking? && w.passes[j].piece == q && SpecAt(spec, w.passes[j].cr.spec, q)
    requires (q == CaSts || q == CaSvc) && Blank(g, j, spec, w.store.children, q)
    ensures var w' := Exec(g, w, [Advance(j, Fine), Advance(j, Fine)]);
            && w'.store.children == w.store.children[Target(j, q) := Wanted(g, j, spec, q).value]
            && j in w'.passes && (forall k :: k in w.passes && k != j ==> k in w'.passes && w'.passes[k] == w.passes[k])
            && (q == CaSts ==> w'.passes[j].Looking? && w'.passes[j].piece == CaSvc &&
                               SpecAt(spec, w'.passes[j].cr.spec, CaSvc))
  {
    hide Exec;
    var cr := w.passes[j].cr;
    GeneratesWanted(g, j, spec, cr, q);
    BlankBlock(g, w, j, spec, cr, q);
  }

  lemma DeletesTwo(g: Generator, w: World, k: CrKey)
    requires k in w.passes && w.passes[k].Removing? && |w.passes[k].todo| >= 2
    ensures var w' := Exec(g, w, [Advance(k, Fine), Advance(k, Fine)]);
            var todo := w.passes[k].todo;
            && w'.store.children == w.store.children - {todo[0], todo[1]}
            && forall j :: j in w.passes && j != k ==> j in w'.passes && w'.passes[j] == w.passes[j]
  {
    hide Apply;
    var a := Advance(k, Fine);
    Deletes(g, w, k, w.passes[k]);
    var w1 := Apply(g, w, a);
    Deletes(g, w1, k, w1.passes[k]);
    TwoActions(g, w, a, a);
    assert w.store.children - {w.passes[k].todo[0]} - {w.passes[k].todo[1]}
        == w.store.children - {w.passes[k].todo[0], w.passes[k].todo[1]};
  }

  /** j creates the StatefulSet, k deletes it and looks in vain for the Service, which j then
      creates: one of the two is left, where a serial order leaves both or none. */
  lemma TeardownCrosses(g: Generator, k: CrKey, j: CrKey, spec: Spec, w: World)
    requires k != j && AtTeardown(g, k, j, spec, w)
    ensures var x, y := [Advance(j, Fine), Advance(j, Fine)], [Advance(k, Fine), Advance(k, Fine)];
            var sts, svc := Target(j, CaSts), Target(j, CaSvc);
            var crossed, kFirst, jFirst := Exec(g, w, x + y + x), Exec(g, w, y + (x + x)), Exec(g, w, x + x + y);
            && sts !in crossed.store.children && svc in crossed.store.children
            && sts in kFirst.store.children && svc !in jFirst.store.children
  {
    hide Exec, Wanted;
    var x, y := [Advance(j, Fine), Advance(j, Fine)], [Advance(k, Fine), Advance(k, Fine)];
    TargetsDiffer(j, CaSts, CaSvc);
    var wx, wy := Exec(g, w, x), Exec(g, w, y);
    CreatesOne(g, w, j, spec, CaSts);
    DeletesTwo(g, w, k);
    var wxy, wxx, wyx := Exec(g, wx, y), Exec(g, wx, x), Exec(g, wy, x);
    DeletesTwo(g, wx, k);
    CreatesOne(g, wxy, j, spec, CaSvc);
    CreatesOne(g, wy, j, spec, CaSts);
    CreatesOne(g, wyx, j, spec, CaSvc);
    CreatesOne(g, wx, j, spec, CaSvc);
    DeletesTwo(g, wxx, k);
    ExecAppend(g, w, x + y, x);
    ExecAppend(g, w, x, y);
    ExecAppend(g, w, y, x + x);
    ExecAppend(g, wy, x, x);
    ExecAppend(g, w, x + x, y);
    ExecAppend(g, w, x, x);
  }

  lemma MtClashCrosses(g: Generator, k: CrKey, j: CrKey, spec: Spec)
    requires MtClash(k, j) && k.name != "" && MetricsOn(spec) && AllRender(g, j, spec)
    ensures !Serialisable(g, k, j)
  {
    hide Exec, AtTeardown, BothOpen;
    CassandraNames(k.name, k.name);
    var open, crk, crj := BothBegin(g, k, j, spec);
    var more := ToTeardown(g, k, j, spec, Exec(g, EMPTY, open), crk, crj);
    ExecAppend(g, EMPTY, open, more);
    TeardownCrosses(g, k, j, spec, Exec(g, EMPTY, open + more));
    var x, y := [Advance(j, Fine), Advance(j, Fine)], [Advance(k, Fine), Advance(k, Fine)];
    NotSerialisable(g, k, j, open + more, x, y, x);
  }

  // ---------- the condition is exact

  lemma SerialisableBothWays(g: Generator, k: CrKey, j: CrKey)
    requires Serialisable(g, k, j)
    ensures Serialisable(g, j, k)
  {
    forall before, acts | Among(before, j, k) && Among(acts, j, k)
      ensures SerialAt(g, Exec(g, EMPTY, before), acts, j, k) {
      assert Among(before, k, j) && Among(acts, k, j);
      assert SerialAt(g, Exec(g, EMPTY, before), acts, k, j);
    }
  }

  /** At every point of every run, what two resources do can be done one after the other
      instead, if and only if neither is called like the other with metrics- or mt- in front. */
  lemma SerialisableIff(g: Generator, k: CrKey, j: CrKey, spec: Spec)
    requires k != j && k.name != "" && j.name != ""
    requires MetricsOn(spec) && AllRender(g, k, spec) && AllRender(g, j, spec)
    ensures Serialisable(g, k, j) <==> Apart(k, j)
  {
    hide Exec, SerialAt;
    if Apart(k, j) {
      forall before, acts | Among(before, k, j) && Among(acts, k, j)
        ensures SerialAt(g, Exec(g, EMPTY, before), acts, k, j) {
        ExecSound(g, EMPTY, before);
        ApartSerial(g, Exec(g, EMPTY, before), acts, k, j);
      }
    } else if Serialisable(g, k, j) {
      SerialisableBothWays(g, k, j);
      if MetricsClash(k, j) {
        MetricsClashCrosses(g, k, j, spec);
      } else if MetricsClash(j, k) {
        MetricsClashCrosses(g, j, k, spec);
      } else if MtClash(k, j) {
        MtClashCrosses(g, k, j, spec);
      } else {
        MtClashCrosses(g, j, k, spec);
      }
    }
  }

  lemma ApartSerial(g: Generator, w: World, acts: seq<Action>, k: CrKey, j: CrKey)
    requires Sound(g, w) && Apart(k, j) && Among(acts, k, j)
    ensures SerialAt(g, w, acts, k, j)
  {
    NonInterference(g, w, k, acts);
    OthersIsOnly(acts, k, j);
  }
}
