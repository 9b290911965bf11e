/** Safety over whole runs: children exist only under the finalizer's protection,
    and the operator changes nothing of a custom resource but its own finalizer. */
module Safety {
  import opened Apps
  import opened Children
  import opened Api
  import opened StringLists
  import opened Reconcile
  import opened World

  predicate Within(acts: seq<Action>, names: iset<CrKey>) {
    forall a :: a in acts ==> a.k in names
  }

  // ---------- write-ahead

  /** How one call can change the children. */
  lemma ServeChildren(s: Store, c: Call, f: Fault)
    ensures var s' := Serve(s, c, f).0;
            || s'.children == s.children
            || ((c.CreateChild? || c.UpdateChild?) && s'.children == s.children[KeyOf(c.manifest) := c.manifest])
            || (c.DeleteChild? && s'.children == s.children - {c.key})
  {
  }

  /** Whoever adds or changes a child is a pass whose resource is stored with the
      finalizer, and the child is one of that resource's own targets. */
  lemma ChildrenWrittenBy(g: Generator, w: World, a: Action, key: Key)
    requires Sound(g, w)
    requires var w' := Apply(g, w, a);
             key in w'.store.children && (key !in w.store.children || w'.store.children[key] != w.store.children[key])
    ensures a.Advance? && InFlight(w, a.k) && w.passes[a.k].Writing?
    ensures a.k.name != "" && Guarded(w.store, a.k)
    ensures key == Target(a.k, w.passes[a.k].piece) && InPlan(w.passes[a.k].cr.spec, w.passes[a.k].piece)
    ensures Apply(g, w, a).store.children == w.store.children[key := w.passes[a.k].manifest]
  {
    assert a.Advance? && InFlight(w, a.k);
    var p := w.passes[a.k];
    assert PassOk(g, w.store, a.k, p);
    ServeChildren(w.store, Pending(a.k, p), a.fault);
    if p.Writing? {
      assert LabelledBy(g, a.k, p.cr.spec, p.piece);
    }
  }

  /** Write-ahead, in any run, whatever faults, crashes, edits, deletions and re-creations it contains. */
  lemma WriteAhead(g: Generator, acts: seq<Action>, a: Action, key: Key)
    requires var w := Exec(g, EMPTY, acts);
             var w' := Apply(g, w, a);
             key in w'.store.children && (key !in w.store.children || w'.store.children[key] != w.store.children[key])
    ensures a.Advance? && Guarded(Exec(g, EMPTY, acts).store, a.k)
    ensures exists q :: key == Target(a.k, q)
  {
    ExecSound(g, EMPTY, acts);
    ChildrenWrittenBy(g, Exec(g, EMPTY, acts), a, key);
  }

  /** Every write, whether or not it succeeds or changes anything: a pass about to create or
      update a child, in any reachable state, works on a resource stored with the finalizer,
      and the child is its own. */
  lemma EveryWriteGuarded(g: Generator, acts: seq<Action>, k: CrKey)
    requires InFlight(Exec(g, EMPTY, acts), k)
    requires var c := Pending(k, Exec(g, EMPTY, acts).passes[k]); c.CreateChild? || c.UpdateChild?
    ensures var w := Exec(g, EMPTY, acts);
            Guarded(w.store, k) && exists q :: KeyOf(Pending(k, w.passes[k]).manifest) == Target(k, q)
  {
    var w := Exec(g, EMPTY, acts);
    ExecSound(g, EMPTY, acts);
    assert PassOk(g, w.store, k, w.passes[k]);
    assert LabelledBy(g, k, w.passes[k].cr.spec, w.passes[k].piece);
  }

  /** A pass that tears down works on a resource that is stored with the finalizer and being deleted. */
  predicate TearsDownDeleted(s: Store, k: CrKey, p: Pass) {
    p.Removing? ==> Guarded(s, k) && s.crs[k].deleting
  }

  ghost predicate TearingDown(w: World) {
    forall k :: k in w.passes ==> TearsDownDeleted(w.store, k, w.passes[k])
  }

  lemma ApplyTearingDown(g: Generator, w: World, a: Action)
    requires TearingDown(w)
    ensures TearingDown(Apply(g, w, a))
  {
    hide Teardown;
    var w' := Apply(g, w, a);
    forall k | k in w'.passes ensures TearsDownDeleted(w'.store, k, w'.passes[k]) {
      if k != a.k {
        ApplyLocal(g, w, a, k);
      }
      if k in w.passes {
        assert TearsDownDeleted(w.store, k, w.passes[k]);
      }
    }
  }

  /** In every run, when a child is about to be deleted, its resource is protected and being deleted. */
  lemma {:induction false} ExecTearingDown(g: Generator, w: World, acts: seq<Action>)
    requires TearingDown(w)
    ensures TearingDown(Exec(g, w, acts))
    decreases |acts|
  {
    if acts != [] {
      ApplyTearingDown(g, w, acts[0]);
      ExecTearingDown(g, Apply(g, w, acts[0]), acts[1..]);
    }
  }

  // ---------- finalizer safety

  /** No two of the resources are called n and metrics-n.  (A nameless resource gets no children.) */
  ghost predicate NoMetricsClash(names: iset<CrKey>) {
    forall j, k :: j in names && k in names && j.name != "" ==> !MetricsClash(j, k)
  }

  /** A resource that is absent, or lacks the finalizer, has none of its nine base children. */
  ghost predicate Safe(names: iset<CrKey>, w: World) {
    forall k, q :: k in names && Base(q) && Target(k, q) in w.store.children ==> Guarded(w.store, k)
  }

  /** A base child is protected, and a teardown in progress has not passed it yet. */
  predicate Kept(w: World, k: CrKey, q: Piece) {
    Target(k, q) in w.store.children ==>
      Guarded(w.store, k) && (k in w.passes && w.passes[k].Removing? ==> Target(k, q) in w.passes[k].todo)
  }

  ghost predicate Owned(names: iset<CrKey>, w: World) {
    forall k, q :: k in names && Base(q) ==> Kept(w, k, q)
  }

  /** The actions on other resources neither create nor unprotect a base child. */
  lemma OthersKeep(g: Generator, names: iset<CrKey>, w: World, a: Action, k: CrKey, q: Piece)
    requires Sound(g, w) && NoMetricsClash(names) && a.k in names && k in names && k != a.k
    requires Base(q) && Kept(w, k, q)
    ensures Kept(Apply(g, w, a), k, q)
  {
    ApplyLocal(g, w, a, k);
    var w' := Apply(g, w, a);
    if Target(k, q) in w'.store.children && Target(k, q) !in w.store.children {
      ChildrenWrittenBy(g, w, a, Target(k, q));
      TargetsCollide(k, q, a.k, w.passes[a.k].piece);
    }
  }

  /** So does the resource's own teardown: it drops the finalizer only when every base child is gone. */
  lemma TeardownKeeps(g: Generator, w: World, k: CrKey, f: Fault, q: Piece)
    requires Sound(g, w) && InFlight(w, k) && w.passes[k].Removing? && Base(q) && Kept(w, k, q)
    ensures Kept(Apply(g, w, Advance(k, f)), k, q)
  {
    hide Teardown, Target;
    assert PassOk(g, w.store, k, w.passes[k]);
  }

  lemma PassKeeps(g: Generator, w: World, k: CrKey, f: Fault, q: Piece)
    requires Sound(g, w) && InFlight(w, k) && !w.passes[k].Removing? && Base(q) && Kept(w, k, q)
    ensures Kept(Apply(g, w, Advance(k, f)), k, q)
  {
    hide Target;
    var p := w.passes[k];
    assert PassOk(g, w.store, k, p);
    var w' := Apply(g, w, Advance(k, f));
    if Target(k, q) in w'.store.children && Target(k, q) !in w.store.children {
      ChildrenWrittenBy(g, w, Advance(k, f), Target(k, q));
    }
    if p.Reading? && w'.passes[k].Removing? {
      TeardownKeys(k, w'.passes[k].cr.spec, Target(k, q));
    }
  }

  lemma ApplyOwned(g: Generator, names: iset<CrKey>, w: World, a: Action)
    requires Sound(g, w) && NoMetricsClash(names) && a.k in names && Owned(names, w)
    ensures Owned(names, Apply(g, w, a))
  {
    forall k, q | k in names && Base(q) ensures Kept(Apply(g, w, a), k, q) {
      assert Kept(w, k, q);
      if k != a.k {
        OthersKeep(g, names, w, a, k, q);
      } else if a.Advance? && InFlight(w, k) {
        if w.passes[k].Removing? {
          TeardownKeeps(g, w, k, a.fault, q);
        } else {
          PassKeeps(g, w, k, a.fault, q);
        }
      }
    }
  }

  lemma {:induction false} ExecOwned(g: Generator, names: iset<CrKey>, w: World, acts: seq<Action>)
    requires Sound(g, w) && NoMetricsClash(names) && Within(acts, names) && Owned(names, w)
    ensures Owned(names, Exec(g, w, acts))
    decreases |acts|
  {
    if acts != [] {
      ApplySound(g, w, acts[0]);
      ApplyOwned(g, names, w, acts[0]);
      ExecOwned(g, names, Apply(g, w, acts[0]), acts[1..]);
    }
  }

  /** Finalizer safety in every reachable state of every run. */
  lemma FinalizerSafety(g: Generator, names: iset<CrKey>, acts: seq<Action>)
    requires NoMetricsClash(names) && Within(acts, names)
    ensures Safe(names, Exec(g, EMPTY, acts))
  {
    ExecOwned(g, names, EMPTY, acts);
    forall k, q | k in names && Base(q) && Target(k, q) in Exec(g, EMPTY, acts).store.children
      ensures Guarded(Exec(g, EMPTY, acts).store, k) {
      assert Kept(Exec(g, EMPTY, acts), k, q);
    }
  }

  // ---------- conservation

  predicate ByOperator(a: Action) {
    a.Begin? || a.Advance? || a.Crash?
  }

  /** Between s and s' a resource lost or gained nothing but the operator's finalizer; it
      disappeared only if it was being deleted and no other finalizer held it. */
  predicate ConservedAt(s: Store, s': Store, k: CrKey) {
    && (k in s'.crs ==>
          && k in s.crs
          && s'.crs[k].spec == s.crs[k].spec && s'.crs[k].deleting == s.crs[k].deleting
          && Without(s'.crs[k].finalizers, FINALIZER) == Without(s.crs[k].finalizers, FINALIZER))
    && (k in s.crs && k !in s'.crs ==>
          s.crs[k].deleting && Without(s.crs[k].finalizers, FINALIZER) == [])
  }

  /** An Update that differs from the copy only in the operator's finalizer. */
  lemma FinalizerWriteConserves(s: Store, k: CrKey, cr: Cr, finalizers: seq<string>, f: Fault)
    requires Synced(s, k, cr) && Without(finalizers, FINALIZER) == Without(cr.finalizers, FINALIZER)
    ensures ConservedAt(s, Serve(s, UpdateCr(k, cr.(finalizers := finalizers)), f).0, k)
  {
  }

  lemma OtherCallsConserve(s: Store, k: CrKey, c: Call, f: Fault)
    requires !c.UpdateCr?
    ensures ConservedAt(s, Serve(s, c, f).0, k)
  {
  }

  lemma OperatorConserves(g: Generator, w: World, a: Action, k: CrKey)
    requires Sound(g, w) && ByOperator(a)
    ensures ConservedAt(w.store, Apply(g, w, a).store, k)
  {
    if k != a.k {
      ApplyLocal(g, w, a, k);
    } else if a.Advance? && InFlight(w, k) {
      var p := w.passes[k];
      assert PassOk(g, w.store, k, p);
      if p.Marking? {
        WithoutAppend(p.cr.finalizers, [FINALIZER], FINALIZER);
        FinalizerWriteConserves(w.store, k, p.cr, p.cr.finalizers + [FINALIZER], a.fault);
      } else if p.Removing? && p.todo == [] {
        WithoutTwice(p.cr.finalizers, FINALIZER);
        FinalizerWriteConserves(w.store, k, p.cr, Without(p.cr.finalizers, FINALIZER), a.fault);
      } else {
        OtherCallsConserve(w.store, k, Pending(k, p), a.fault);
      }
    }
  }

  /** Over any stretch of operator actions, crashes and failed calls included. */
  lemma {:induction false} RunConserves(g: Generator, w: World, acts: seq<Action>, k: CrKey)
    requires Sound(g, w) && forall a :: a in acts ==> ByOperator(a)
    ensures ConservedAt(w.store, Exec(g, w, acts).store, k)
    decreases |acts|
  {
    if acts != [] {
      var w' := Apply(g, w, acts[0]);
      OperatorConserves(g, w, acts[0], k);
      ApplySound(g, w, acts[0]);
      RunConserves(g, w', acts[1..], k);
    }
  }

  /** What may happen to resource k between adding the finalizer and removing it: anything
      on other resources, any action of the operator, its deletion by a user, and edits
      that keep the other finalizers as they are in `others`. */
  predicate KeepsOthers(a: Action, k: CrKey, others: seq<string>) {
    a.k == k ==> !a.UserCreate? && (a.UserEdit? ==> Without(a.finalizers, FINALIZER) == others)
  }

  lemma ApplyKeepsOthers(g: Generator, w: World, a: Action, k: CrKey, others: seq<string>)
    requires Sound(g, w) && KeepsOthers(a, k, others)
    requires k in w.store.crs ==> Without(w.store.crs[k].finalizers, FINALIZER) == others
    ensures var s' := Apply(g, w, a).store;
            k in s'.crs ==> k in w.store.crs && Without(s'.crs[k].finalizers, FINALIZER) == others
  {
    if ByOperator(a) {
      OperatorConserves(g, w, a, k);
    } else if a.k != k {
      ApplyLocal(g, w, a, k);
    }
  }

  lemma {:induction false} OthersKept(g: Generator, w: World, acts: seq<Action>, k: CrKey, others: seq<string>)
    requires Sound(g, w) && forall a :: a in acts ==> KeepsOthers(a, k, others)
    requires k in w.store.crs ==> Without(w.store.crs[k].finalizers, FINALIZER) == others
    ensures var s' := Exec(g, w, acts).store;
            k in s'.crs ==> k in w.store.crs && Without(s'.crs[k].finalizers, FINALIZER) == others
    decreases |acts|
  {
    if acts != [] {
      assert acts[0] in acts;
      ApplyKeepsOthers(g, w, acts[0], k, others);
      ApplySound(g, w, acts[0]);
      OthersKept(g, Apply(g, w, acts[0]), acts[1..], k, others);
    }
  }

  /** Adding the finalizer and later removing it gives back the original list, in any
      interleaving with users, other resources, faults and crashes. */
  lemma FinalizerRoundTrip(g: Generator, w: World, acts: seq<Action>, k: CrKey)
    requires Sound(g, w) && k in w.store.crs && k in Exec(g, w, acts).store.crs
    requires forall a :: a in acts ==> KeepsOthers(a, k, Without(w.store.crs[k].finalizers, FINALIZER))
    ensures var before, after := w.store.crs[k].finalizers, Exec(g, w, acts).store.crs[k].finalizers;
            && Without(after, FINALIZER) == Without(before, FINALIZER)
            && (FINALIZER !in before && FINALIZER !in after ==> after == before)
  {
    var before, after := w.store.crs[k].finalizers, Exec(g, w, acts).store.crs[k].finalizers;
    OthersKept(g, w, acts, k, Without(before, FINALIZER));
    if FINALIZER !in before && FINALIZER !in after {
      WithoutAbsent(before, FINALIZER);
      WithoutAbsent(after, FINALIZER);
    }
  }
}
