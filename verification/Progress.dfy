/** Ordered progress under interleaving: while the passes of other resources, users and
    crashes interfere, everything a pass has got past stays as that pass left it. */
module Progress {
  import opened Types
  import opened Apps
  import opened Children
  import opened Api
  import opened Reconcile
  import opened World
  import opened Safety
  import opened Convergence

  /** No name is another one's with metrics- or mt- in front. */
  ghost predicate NoClash(names: iset<CrKey>) {
    NoMetricsClash(names) && forall j, k :: j in names && k in names ==> !MtClash(j, k)
  }

  predicate PassesWithin(w: World, names: iset<CrKey>) {
    forall k :: k in w.passes ==> k in names
  }

  /** Whether k's pass has had no stale answer to the Get of a child, so far and after a.  A new pass starts afresh. */
  predicate FreshAfter(w: World, a: Action, k: CrKey, upToDate: bool) {
    if a.k != k then upToDate
    else if a.Begin? && !InFlight(w, k) then true
    else upToDate && !(a.Advance? && a.fault.Stale?)
  }

  predicate FreshFrom(g: Generator, w: World, acts: seq<Action>, k: CrKey, upToDate: bool)
    decreases |acts|
  {
    if acts == [] then upToDate
    else FreshFrom(g, Apply(g, w, acts[0]), acts[1..], k, FreshAfter(w, acts[0], k, upToDate))
  }

  /** At the end of the run, k's last pass has had no stale answer; earlier passes and other resources may have. */
  predicate ReadsFresh(g: Generator, acts: seq<Action>, k: CrKey) {
    FreshFrom(g, EMPTY, acts, k, true)
  }

  ghost predicate SettledBelow(g: Generator, k: CrKey, spec: Spec, c: ChildMap, bound: nat) {
    forall x :: InPlan(spec, x) && Ord(x) < bound ==> Settled(g, k, spec, c, x)
  }

  /** Past the metrics block, the in-memory spec has its data centre. */
  predicate DcSet(spec: Spec, bound: nat) {
    MetricsOn(spec) && Ord(MtSts) < bound ==> spec == WithDc(spec)
  }

  ghost predicate InOrder(g: Generator, k: CrKey, c: ChildMap, p: Pass) {
    match p
    case Looking(cr, q) => DcSet(cr.spec, Ord(q)) && SettledBelow(g, k, cr.spec, c, Ord(q))
    case Writing(cr, q, _, _) => DcSet(cr.spec, Ord(q) + 1) && SettledBelow(g, k, cr.spec, c, Ord(q))
    case Converged(cr) => SettledBelow(g, k, cr.spec, c, 11)
    case _ => true
  }

  ghost predicate Orderly(g: Generator, w: World, k: CrKey) {
    k in w.passes ==> InOrder(g, k, w.store.children, w.passes[k])
  }

  /** Changing the data centre of the in-memory copy does not unsettle anything. */
  lemma SameWanted(g: Generator, k: CrKey, spec: Spec, c: ChildMap, bound: nat)
    requires SettledBelow(g, k, spec, c, bound) && MetricsOn(spec)
    ensures SettledBelow(g, k, WithDc(spec), c, bound)
  {
    forall x | InPlan(WithDc(spec), x) && Ord(x) < bound ensures Settled(g, k, WithDc(spec), c, x) {
      assert Settled(g, k, spec, c, x);
    }
  }

  lemma GeneratedIsWanted(g: Generator, k: CrKey, spec: Spec, q: Piece)
    requires InPlan(spec, q) && DcSet(spec, Ord(q) + 1)
    ensures g(k, spec, q) == Wanted(g, k, spec, q)
  {
    assert IgnoresDc(g, k, spec, q);
  }

  /** From a settled block to the next. */
  lemma NextInOrder(g: Generator, k: CrKey, cr: Cr, q: Piece, c: ChildMap)
    requires InPlan(cr.spec, q) && DcSet(cr.spec, Ord(q) + 1)
    requires SettledBelow(g, k, cr.spec, c, Ord(q)) && Settled(g, k, cr.spec, c, q)
    ensures InOrder(g, k, c, NextBlock(cr, q))
  {
    NextIsNext(cr.spec, q);
    var next := Limit(Next(cr.spec, q));
    forall x | InPlan(cr.spec, x) && Ord(x) < next ensures Settled(g, k, cr.spec, c, x) {
      if x != q { OrdApart(x, q); }
    }
  }

  lemma LookInOrder(g: Generator, s: Store, k: CrKey, p: Pass, f: Fault)
    requires p.Looking? && PassOk(g, s, k, p) && InOrder(g, k, s.children, p) && !f.Stale?
    ensures var (s', r) := Serve(s, Pending(k, p), f);
            s' == s && InOrder(g, k, s.children, Resume(g, k, p, r))
  {
    var cr, q := p.cr, p.piece;
    var r := Serve(s, Pending(k, p), f).1;
    if r.Found? && CreateOnly(q) {
      NextInOrder(g, k, cr, q, s.children);
    } else if q == MtSts {
      SameWanted(g, k, cr.spec, s.children, Ord(q));
    }
  }

  lemma WriteInOrder(g: Generator, s: Store, k: CrKey, p: Pass, f: Fault)
    requires p.Writing? && PassOk(g, s, k, p) && InOrder(g, k, s.children, p)
    ensures var (s', r) := Serve(s, Pending(k, p), f);
            InOrder(g, k, s'.children, Resume(g, k, p, r))
  {
    var cr, q, m := p.cr, p.piece, p.manifest;
    var (s', r) := Serve(s, Pending(k, p), f);
    assert LabelledBy(g, k, cr.spec, q);
    GeneratedIsWanted(g, k, cr.spec, q);
    if r.Accepted? {
      var c' := s.children[Target(k, q) := m];
      assert s'.children == c';
      forall x | InPlan(cr.spec, x) && Ord(x) < Ord(q) ensures Settled(g, k, cr.spec, c', x) {
        TargetsDiffer(k, x, q);
        assert Settled(g, k, cr.spec, s.children, x);
      }
      NextInOrder(g, k, cr, q, c');
    }
  }

  /** No action on another resource touches a child this one may have written. */
  lemma OthersLeave(g: Generator, names: iset<CrKey>, w: World, a: Action, k: CrKey, q: Piece)
    requires Sound(g, w) && NoClash(names) && a.k in names && k in names && k != a.k && k.name != ""
    ensures SameAt(w.store.children, Apply(g, w, a).store.children, Target(k, q))
  {
    var c, c' := w.store.children, Apply(g, w, a).store.children;
    if a.Advance? && InFlight(w, a.k) {
      var p := w.passes[a.k];
      assert PassOk(g, w.store, a.k, p);
      ServeChildren(w.store, Pending(a.k, p), a.fault);
      if p.Writing? {
        assert LabelledBy(g, a.k, p.cr.spec, p.piece);
        TargetsCollide(k, q, a.k, p.piece);
      } else if p.Removing? && p.todo != [] {
        DeletedByTeardown(a.k, p, k, q);
      }
    }
  }

  lemma DeletedByTeardown(j: CrKey, p: Pass, k: CrKey, q: Piece)
    requires p.Removing? && p.todo != [] && IsSuffix(p.todo, Teardown(j, p.cr.spec))
    requires j != k && !MetricsClash(k, j) && !MtClash(j, k)
    ensures p.todo[0] != Target(k, q)
  {
    var key := p.todo[0];
    var all := Teardown(j, p.cr.spec);
    assert all[|all| - |p.todo|] == key;
    TeardownKeys(j, p.cr.spec, key);
    MtKeysCollide(j, k, q);
    if x :| Base(x) && key == Target(j, x) {
      TargetsCollide(k, q, j, x);
    }
  }

  lemma OthersInOrder(g: Generator, names: iset<CrKey>, w: World, a: Action, k: CrKey)
    requires Sound(g, w) && NoClash(names) && a.k in names && k in names && k != a.k
    requires k in w.passes && InOrder(g, k, w.store.children, w.passes[k])
    ensures InOrder(g, k, Apply(g, w, a).store.children, w.passes[k])
  {
    assert PassOk(g, w.store, k, w.passes[k]);
    var c, c' := w.store.children, Apply(g, w, a).store.children;
    if k.name != "" {
      forall q ensures SameAt(c, c', Target(k, q)) {
        OthersLeave(g, names, w, a, k, q);
      }
    }
  }

  lemma ApplyOrderly(g: Generator, names: iset<CrKey>, w: World, a: Action, k: CrKey, upToDate: bool)
    requires Sound(g, w) && NoClash(names) && a.k in names && k in names && (upToDate ==> Orderly(g, w, k))
    ensures FreshAfter(w, a, k, upToDate) ==> Orderly(g, Apply(g, w, a), k)
  {
    var w' := Apply(g, w, a);
    if k in w'.passes && FreshAfter(w, a, k, upToDate) {
      if k != a.k {
        ApplyLocal(g, w, a, k);
        OthersInOrder(g, names, w, a, k);
      } else if a.Advance? && InFlight(w, k) {
        var p := w.passes[k];
        assert PassOk(g, w.store, k, p);
        if p.Looking? {
          LookInOrder(g, w.store, k, p, a.fault);
        } else if p.Writing? {
          WriteInOrder(g, w.store, k, p, a.fault);
        } else {
          EarlyInOrder(g, w.store, k, p, a.fault);
        }
      } else if k in w.passes && w'.passes[k] == w.passes[k] {
        assert w'.store.children == w.store.children;
      }
    }
  }

  lemma EarlyInOrder(g: Generator, s: Store, k: CrKey, p: Pass, f: Fault)
    requires p.Reading? || p.Marking? || p.Removing?
    ensures var (s', r) := Serve(s, Pending(k, p), f);
            InOrder(g, k, s'.children, Resume(g, k, p, r))
  {
  }

  lemma {:induction false} ExecOrderly(g: Generator, names: iset<CrKey>, w: World, acts: seq<Action>,
                                       k: CrKey, upToDate: bool)
    requires Sound(g, w) && NoClash(names) && Within(acts, names) && k in names && (upToDate ==> Orderly(g, w, k))
    ensures FreshFrom(g, w, acts, k, upToDate) ==> Orderly(g, Exec(g, w, acts), k)
    decreases |acts|
  {
    if acts != [] {
      assert acts[0] in acts;
      ApplySound(g, w, acts[0]);
      ApplyOrderly(g, names, w, acts[0], k, upToDate);
      ExecOrderly(g, names, Apply(g, w, acts[0]), acts[1..], k, FreshAfter(w, acts[0], k, upToDate));
    }
  }

  lemma {:induction false} ExecWithin(g: Generator, names: iset<CrKey>, w: World, acts: seq<Action>)
    requires Within(acts, names) && PassesWithin(w, names)
    ensures PassesWithin(Exec(g, w, acts), names)
    decreases |acts|
  {
    if acts != [] {
      var a, w1 := acts[0], Apply(g, w, acts[0]);
      assert a in acts;
      forall k | k in w1.passes ensures k in names {
        if k != a.k {
          ApplyLocal(g, w, a, k);
        }
      }
      ExecWithin(g, names, w1, acts[1..]);
    }
  }

  /** In every reachable state, the children of all blocks a pass has got past are as its
      blocks wrote them; after a pass that ran all of them, until the next pass of that
      resource begins, this is so of all its children.  Only the pass's own Gets matter. */
  lemma ProgressInAnyRun(g: Generator, names: iset<CrKey>, acts: seq<Action>, k: CrKey)
    requires NoClash(names) && Within(acts, names) && ReadsFresh(g, acts, k)
    requires k in Exec(g, EMPTY, acts).passes
    ensures var w := Exec(g, EMPTY, acts);
            var p := w.passes[k];
            && ((p.Looking? || p.Writing?) ==> SettledBelow(g, k, p.cr.spec, w.store.children, Ord(p.piece)))
            && (p.Converged? ==> forall q :: InPlan(p.cr.spec, q) ==> Settled(g, k, p.cr.spec, w.store.children, q))
  {
    ExecWithin(g, names, EMPTY, acts);
    ExecOrderly(g, names, EMPTY, acts, k, true);
  }
}
