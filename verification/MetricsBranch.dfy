/** The metrics block looks its StatefulSet up as ca-mt-n and creates it as
    ca-metrics-n: once that exists, no later pass with metrics on gets past the block. */
module MetricsBranch {
  import opened Types
  import opened Apps
  import opened Children
  import opened Api
  import opened Reconcile
  import opened World
  import opened Safety
  import opened Convergence
  import opened Progress
  import opened Independence
  import opened Wiring

  /** A pass that has not got past the metrics StatefulSet. */
  predicate Early(p: Pass) {
    match p
    case Reading => true
    case Marking(cr) => MetricsOn(cr.spec)
    case Looking(cr, q) => MetricsOn(cr.spec) && Ord(q) <= Ord(MtSts)
    case Writing(cr, q, found, _) => MetricsOn(cr.spec) && Ord(q) <= Ord(MtSts) && (q == MtSts ==> !found)
    case Stopped(_) => true
    case _ => false
  }

  /** A live resource with metrics on, whose metrics StatefulSet exists under the name it is
      created with, but not under the name it is looked up with. */
  predicate Stuck(w: World, k: CrKey) {
    && k in w.store.crs && !w.store.crs[k].deleting && MetricsOn(w.store.crs[k].spec)
    && Target(k, MtSts) in w.store.children && Lookup(k, MtSts) !in w.store.children
    && (k in w.passes ==> Early(w.passes[k]))
  }

  /** Actions that neither delete k nor switch its metrics off; no Get is stale. */
  predicate KeepsMetrics(k: CrKey, a: Action) {
    && (a.k != k ==> Apart(k, a.k))
    && (a.k == k ==> !a.UserDelete? && (a.UserEdit? ==> MetricsOn(a.spec)) && (a.Advance? ==> !a.fault.Stale?))
  }

  lemma MetricsIsAhead(spec: Spec, q: Piece)
    requires MetricsOn(spec) && Ord(q) < Ord(MtSts)
    ensures Next(spec, q).Val? && Ord(Next(spec, q).value) <= Ord(MtSts)
  {
  }

  /** One call of a pass on its way to the metrics block. */
  lemma CallStaysEarly(g: Generator, s: Store, k: CrKey, p: Pass, f: Fault)
    requires PassOk(g, s, k, p) && !p.Terminal() && Stuck(World(s, map[k := p]), k) && !f.Stale?
    ensures var (s', r) := Serve(s, Pending(k, p), f);
            Early(Resume(g, k, p, r)) && s'.crs.Keys == s.crs.Keys
            && !s'.crs[k].deleting && s'.crs[k].spec == s.crs[k].spec
  {
    match p {
      case Looking(cr, q) => if q != MtSts { MetricsBefore(q); MetricsIsAhead(cr.spec, q); }
      case Writing(cr, q, _, _) =>
        assert LabelledBy(g, k, cr.spec, q);
        if q != MtSts { MetricsBefore(q); MetricsIsAhead(cr.spec, q); }
      case _ =>
    }
  }

  lemma MetricsBefore(q: Piece)
    requires q != MtSts && Ord(q) <= Ord(MtSts)
    ensures Ord(q) < Ord(MtSts)
  {
  }

  /** Such a call writes no child from the metrics block on, and nothing under the name looked up. */
  lemma CallLeavesLater(g: Generator, s: Store, k: CrKey, p: Pass, f: Fault, key: Key)
    requires PassOk(g, s, k, p) && !p.Terminal() && Stuck(World(s, map[k := p]), k)
    requires key == Lookup(k, MtSts) || exists x :: Ord(MtSts) <= Ord(x) && key == Target(k, x)
    ensures SameAt(s.children, Serve(s, Pending(k, p), f).0.children, key)
  {
    ServeChildren(s, Pending(k, p), f);
    if p.Writing? {
      assert LabelledBy(g, k, p.cr.spec, p.piece);
      if p.piece != MtSts {
        MetricsBefore(p.piece);
        LookupApart(k, p.piece, MtSts);
        if x :| Ord(MtSts) <= Ord(x) && key == Target(k, x) {
          TargetsDiffer(k, p.piece, x);
        }
      }
    }
  }

  ghost predicate LaterKept(k: CrKey, c: ChildMap, c': ChildMap) {
    forall x :: Ord(MtSts) <= Ord(x) ==> SameAt(c, c', Target(k, x))
  }

  lemma ApplyLeavesLater(g: Generator, w: World, a: Action, k: CrKey, key: Key)
    requires Sound(g, w) && Stuck(w, k) && KeepsMetrics(k, a)
    requires key == Lookup(k, MtSts) || exists x :: Ord(MtSts) <= Ord(x) && key == Target(k, x)
    ensures SameAt(w.store.children, Apply(g, w, a).store.children, key)
  {
    if a.Advance? && InFlight(w, a.k) {
      if a.k == k {
        assert PassOk(g, w.store, k, w.passes[k]);
        CallLeavesLater(g, w.store, k, w.passes[k], a.fault, key);
      } else {
        OtherCallLeaves(g, w, a, k, key);
      }
    }
  }

  /** The resource and its pass stay as they have to be. */
  lemma ApplyStaysEarly(g: Generator, w: World, a: Action, k: CrKey)
    requires Sound(g, w) && Stuck(w, k) && KeepsMetrics(k, a)
    ensures var w' := Apply(g, w, a);
            && k in w'.store.crs && !w'.store.crs[k].deleting && MetricsOn(w'.store.crs[k].spec)
            && (k in w'.passes ==> Early(w'.passes[k]))
  {
    if a.k != k {
      ApplyLocal(g, w, a, k);
    } else if a.Advance? && InFlight(w, k) {
      assert PassOk(g, w.store, k, w.passes[k]);
      CallStaysEarly(g, w.store, k, w.passes[k], a.fault);
    }
  }

  lemma ApplyStuck(g: Generator, w: World, a: Action, k: CrKey)
    requires Sound(g, w) && Stuck(w, k) && KeepsMetrics(k, a)
    ensures Stuck(Apply(g, w, a), k) && LaterKept(k, w.store.children, Apply(g, w, a).store.children)
  {
    var c, c' := w.store.children, Apply(g, w, a).store.children;
    ApplyStaysEarly(g, w, a, k);
    ApplyLeavesLater(g, w, a, k, Lookup(k, MtSts));
    forall x | Ord(MtSts) <= Ord(x) ensures SameAt(c, c', Target(k, x)) {
      ApplyLeavesLater(g, w, a, k, Target(k, x));
    }
    assert SameAt(c, c', Target(k, MtSts));
  }

  lemma OtherCallLeaves(g: Generator, w: World, a: Action, k: CrKey, key: Key)
    requires Sound(g, w) && Apart(k, a.k) && Touches(k, key)
    ensures SameAt(w.store.children, Apply(g, w, a).store.children, key)
  {
    ApartFootprints(k, a.k, key);
    if ChildOf(w, a).Val? {
      ChildIsTouched(g, w, a);
    }
    OtherChildren(g, w, a, key);
  }

  /** Whatever happens, short of deleting k, switching its metrics off or removing
      ca-metrics-n from outside: no pass of k gets past the metrics block, and the children
      from that block on, the server's and the main cluster's among them, keep their content. */
  lemma {:induction false} StuckForever(g: Generator, w: World, acts: seq<Action>, k: CrKey)
    requires Sound(g, w) && Stuck(w, k) && forall a :: a in acts ==> KeepsMetrics(k, a)
    ensures var w' := Exec(g, w, acts);
            Stuck(w', k) && LaterKept(k, w.store.children, w'.store.children)
    decreases |acts|
  {
    if acts != [] {
      var w1 := Apply(g, w, acts[0]);
      assert acts[0] in acts;
      ApplyStuck(g, w, acts[0], k);
      ApplySound(g, w, acts[0]);
      StuckForever(g, w1, acts[1..], k);
      var c, c1, c' := w.store.children, w1.store.children, Exec(g, w, acts).store.children;
      forall x | Ord(MtSts) <= Ord(x) ensures SameAt(c, c', Target(k, x)) {
        assert SameAt(c, c1, Target(k, x)) && SameAt(c1, c', Target(k, x));
      }
    }
  }

  /** With metrics on, at most one pass of a resource ever runs all its blocks: after the
      first that does, every later pass stops, while metrics stay on and k is not deleted. */
  lemma AtMostOneSuccess(g: Generator, names: iset<CrKey>, before: seq<Action>, k: CrKey, later: seq<Action>)
    requires NoClash(names) && k in names && Within(before, names) && ReadsFresh(g, before, k)
    requires var w := Exec(g, EMPTY, before);
             && k in w.passes && w.passes[k].Converged? && MetricsOn(w.passes[k].cr.spec)
             && k in w.store.crs && !w.store.crs[k].deleting && MetricsOn(w.store.crs[k].spec)
    requires forall a :: a in later ==> KeepsMetrics(k, a)
    ensures var w := Exec(g, EMPTY, before);
            var w' := Exec(g, w, [Begin(k)] + later);
            (k in w'.passes ==> !w'.passes[k].Converged?) && LaterKept(k, w.store.children, w'.store.children)
  {
    var w := Exec(g, EMPTY, before);
    var w1 := Apply(g, w, Begin(k));
    ExecSound(g, EMPTY, before);
    ExecSourced(g, names, EMPTY, before);
    SourcedIsTraced(g, names, w.store.children);
    ProgressInAnyRun(g, names, before, k);
    assert Settled(g, k, w.passes[k].cr.spec, w.store.children, MtSts);
    NothingUnderMt(names, w.store.children, k);
    ApplySound(g, w, Begin(k));
    StuckForever(g, w1, later, k);
    assert ([Begin(k)] + later)[1..] == later;
  }

  lemma NothingUnderMt(names: iset<CrKey>, c: ChildMap, k: CrKey)
    requires Traced(names, c) && k in names && NoClash(names)
    ensures Lookup(k, MtSts) !in c
  {
    var key := Lookup(k, MtSts);
    assert TracedAt(names, c, key) && MtKey(k, key);
    if key in c {
      var j, q :| j in names && key == Target(j, q);
      MtKeysCollide(k, j, q);
    }
  }

  // ---------- the metrics objects outlive their resource

  lemma TeardownSparesMetrics(j: CrKey, p: Pass, k: CrKey, q: Piece)
    requires p.Removing? && p.todo != [] && IsSuffix(p.todo, Teardown(j, p.cr.spec))
    requires !Base(q) && !MetricsClash(k, j)
    ensures p.todo[0] != Target(k, q)
  {
    var key := p.todo[0];
    var all := Teardown(j, p.cr.spec);
    assert all[|all| - |p.todo|] == key;
    TeardownKeys(j, p.cr.spec, key);
    MtKeysCollide(j, k, q);
    if x :| Base(x) && key == Target(j, x) {
      TargetsCollide(k, q, j, x);
    }
  }

  lemma ApplySparesMetrics(g: Generator, w: World, a: Action, k: CrKey, q: Piece)
    requires Sound(g, w) && !Base(q) && !MetricsClash(k, a.k) && Target(k, q) in w.store.children
    ensures Target(k, q) in Apply(g, w, a).store.children
  {
    if a.Advance? && InFlight(w, a.k) {
      var p := w.passes[a.k];
      assert PassOk(g, w.store, a.k, p);
      ServeChildren(w.store, Pending(a.k, p), a.fault);
      if p.Removing? && p.todo != [] {
        TeardownSparesMetrics(a.k, p, k, q);
      }
    }
  }

  /** Teardown deletes ca-mt-n, which nothing creates, and not ca-metrics-n: once the operator
      has created a metrics object it never removes it again, in any run, not even when
      metrics are switched off or the resource is gone. */
  lemma {:induction false} MetricsObjectsStay(g: Generator, w: World, acts: seq<Action>, k: CrKey, q: Piece)
    requires Sound(g, w) && !Base(q) && Target(k, q) in w.store.children
    requires forall a :: a in acts ==> !MetricsClash(k, a.k)
    ensures Target(k, q) in Exec(g, w, acts).store.children
    decreases |acts|
  {
    if acts != [] {
      assert acts[0] in acts;
      ApplySound(g, w, acts[0]);
      ApplySparesMetrics(g, w, acts[0], k, q);
      MetricsObjectsStay(g, Apply(g, w, acts[0]), acts[1..], k, q);
    }
  }

  /** So once a metrics cluster is there, not all endpoints of its resource resolve after any
      later pass that runs all its blocks, with metrics on or off. */
  lemma NeverAllWiredAgain(lib: Library, names: iset<CrKey>, before: seq<Action>, k: CrKey, later: seq<Action>)
    requires NoClash(names) && k in names && Within(before + later, names)
    requires ReadsFresh(Operator(lib), before + later, k)
    requires Target(k, MtSts) in Exec(Operator(lib), EMPTY, before).store.children
    requires var w := Exec(Operator(lib), EMPTY, before + later); k in w.passes && w.passes[k].Converged?
    ensures !AllWired(k, Exec(Operator(lib), EMPTY, before + later).store.children)
  {
    var g := Operator(lib);
    var w, w' := Exec(g, EMPTY, before), Exec(g, EMPTY, before + later);
    ExecSound(g, EMPTY, before);
    ExecSound(g, EMPTY, before + later);
    assert PassOk(g, w'.store, k, w'.passes[k]);
    forall a | a in later ensures !MetricsClash(k, a.k) {
      assert a in before + later;
    }
    MetricsObjectsStay(g, w, later, k, MtSts);
    ExecAppend(g, EMPTY, before, later);
    WiringIff(lib, names, before + later, k);
  }
}
