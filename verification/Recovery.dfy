/** Where passes lead: every store has a goal for a resource; a pass either reaches it
    or leaves it where it was, and fails only because a call fails. */
module Recovery {
  import opened Types
  import opened Apps
  import opened Children
  import opened Api
  import opened StringLists
  import opened Reconcile
  import opened Convergence

  function WithFinalizer(s: Store, k: CrKey): Store
    requires k in s.crs
  {
    var cr := s.crs[k];
    if FINALIZER in cr.finalizers then s else Commit(s, k, cr.(finalizers := cr.finalizers + [FINALIZER]))
  }

  function Minus(c: ChildMap, keys: seq<Key>): ChildMap {
    map key | key in c && key !in keys :: c[key]
  }

  /** The store once `keys` are deleted and the finalizer is dropped. */
  function Released(s: Store, k: CrKey, keys: seq<Key>): Store
    requires k in s.crs
  {
    Commit(s.(children := Minus(s.children, keys)), k,
           s.crs[k].(finalizers := Without(s.crs[k].finalizers, FINALIZER)))
  }

  function Goal(g: Generator, k: CrKey, s: Store): Store {
    if k !in s.crs then s
    else
      var cr := s.crs[k];
      if cr.deleting then
        if FINALIZER in cr.finalizers then Released(s, k, Teardown(k, cr.spec)) else s
      else if k.name == "" then WithFinalizer(s, k)
      else WithFinalizer(s, k).(children := AllFrom(g, k, cr.spec, s.children, Val(EsSts)))
  }

  predicate Live(s: Store, k: CrKey) {
    k in s.crs && !s.crs[k].deleting && k.name != ""
  }

  /** Nothing but a failing call can stop the next pass. */
  ghost predicate Unblocked(g: Generator, k: CrKey, s: Store) {
    Live(s, k) ==> Ready(g, k, s.crs[k].spec, s.children, 0)
  }

  // ---------- teardown

  /** Some of the keys are gone, and nothing else has changed. */
  ghost predicate PartlyRemoved(s: Store, s': Store, keys: seq<Key>) {
    s' == s.(children := s'.children) && Minus(s'.children, keys) == Minus(s.children, keys)
  }

  lemma {:induction false} RunRemoving(g: Generator, k: CrKey, s: Store, todo: seq<Key>, script: seq<Tick>)
    requires Quiet(script) && k in s.crs
    ensures var o := Run(g, k, s, Removing(s.crs[k], todo), script);
            && o.pass.Stopped?
            && (o.store == Released(s, k, todo) || (o.pass.Failed() && PartlyRemoved(s, o.store, todo)))
            && Quiet(o.script) && Failures(o.script) <= Failures(script)
            && (o.pass.Failed() ==> Failures(o.script) < Failures(script))
    decreases |todo|
  {
    CountFailures(script);
    var p := Removing(s.crs[k], todo);
    var (s', r) := Serve(s, Pending(k, p), First(script).fault);
    var p' := Resume(g, k, p, r);
    if todo == [] {
      assert Minus(s.children, []) == s.children;
      RunEnds(g, k, s', p', Rest(script));
    } else {
      RemoveOne(s, k, todo, First(script).fault);
      if p'.Stopped? {
        RunEnds(g, k, s', p', Rest(script));
      } else {
        RunRemoving(g, k, s', todo[1..], Rest(script));
        var o := Run(g, k, s', p', Rest(script));
        if PartlyRemoved(s', o.store, todo[1..]) {
          MinusMore(o.store.children, s'.children, todo);
        }
      }
    }
  }

  lemma RemoveOne(s: Store, k: CrKey, todo: seq<Key>, f: Fault)
    requires todo != [] && k in s.crs && !f.Stale?
    ensures var (s', r) := Serve(s, DeleteChild(todo[0]), f);
            && PartlyRemoved(s, s', todo)
            && (!r.Error? ==> Minus(s'.children, todo[1..]) == Minus(s.children, todo))
            && (r.Error? ==> f != Fine)
  {
    var s' := Serve(s, DeleteChild(todo[0]), f).0;
    assert todo == [todo[0]] + todo[1..];
    assert Minus(s'.children, todo) == Minus(s.children, todo);
  }

  lemma MinusMore(c: ChildMap, d: ChildMap, todo: seq<Key>)
    requires todo != [] && Minus(c, todo[1..]) == Minus(d, todo[1..])
    ensures Minus(c, todo) == Minus(d, todo)
  {
    assert todo == [todo[0]] + todo[1..];
    forall key | key !in todo ensures SameAt(c, d, key) {
      assert key in Minus(c, todo[1..]) <==> key in c;
      assert key in Minus(d, todo[1..]) <==> key in d;
    }
    assert Minus(c, todo) == Minus(d, todo);
  }

  // ---------- one pass

  /** How a pass over a live resource that carries the finalizer ends. */
  lemma LivePassTowardsGoal(g: Generator, k: CrKey, s: Store, cr: Cr, script: seq<Tick>) returns (stop: Opt<Piece>)
    requires Quiet(script) && Live(s, k) && FINALIZER in s.crs[k].finalizers && cr.spec == s.crs[k].spec
    ensures var o := Run(g, k, s, Looking(cr, EsSts), script);
            && Ran(g, k, cr.spec, s, Val(EsSts), script, o, stop)
            && Goal(g, k, o.store) == Goal(g, k, s)
            && (!o.pass.Failed() ==> o.store == Goal(g, k, s))
  {
    var spec := cr.spec;
    stop := RunBlocks(g, k, spec, s, cr, EsSts, script);
    var c' := Run(g, k, s, Looking(cr, EsSts), script).store.children;
    assert forall x :: InPlan(spec, x) && 0 <= Ord(x) < Limit(stop) ==> Between(spec, x, Val(EsSts), stop);
    SettledBlocksSkip(g, k, spec, c', Val(EsSts), stop);
  }

  /** What one pass guarantees: it never moves the goal, it reaches the goal unless it
      fails, and unless it was blocked it fails only by using up a failure. */
  ghost predicate TowardsGoal(g: Generator, k: CrKey, s: Store, script: seq<Tick>, o: Outcome) {
    && o.pass.Terminal()
    && Goal(g, k, o.store) == Goal(g, k, s)
    && (!o.pass.Failed() ==> o.store == Goal(g, k, s))
    && Quiet(o.script) && Failures(o.script) <= Failures(script)
    && (o.pass.Failed() && Unblocked(g, k, s) ==> Failures(o.script) < Failures(script))
  }

  lemma TeardownPass(g: Generator, k: CrKey, s: Store, script: seq<Tick>)
    requires Quiet(script) && k in s.crs && s.crs[k].deleting && FINALIZER in s.crs[k].finalizers
    ensures TowardsGoal(g, k, s, script, Run(g, k, s, AfterRead(k, s.crs[k]), script))
  {
    hide Run, AllFrom, Ready, Teardown;
    RunRemoving(g, k, s, Teardown(k, s.crs[k].spec), script);
  }

  /** The Update that adds the finalizer. */
  lemma MarkCall(g: Generator, k: CrKey, s: Store, script: seq<Tick>) returns (s': Store, cr': Cr, ok: bool)
    requires Quiet(script) && k in s.crs && !s.crs[k].deleting && FINALIZER !in s.crs[k].finalizers
    ensures Run(g, k, s, Marking(s.crs[k]), script)
         == Run(g, k, s', if ok then FirstBlock(k, cr') else Stopped(true), Rest(script))
    ensures (s' == s || s' == WithFinalizer(s, k)) && (ok ==> s' == WithFinalizer(s, k)) && cr'.spec == s.crs[k].spec
    ensures !ok ==> First(script).fault != Fine
  {
    CountFailures(script);
    var cr := s.crs[k];
    var (x, r) := Serve(s, Pending(k, Marking(cr)), First(script).fault);
    s', ok := x, r.Accepted?;
    cr' := if ok then cr.(rv := r.rv, finalizers := cr.finalizers + [FINALIZER]) else cr;
  }

  lemma FinalizerKeepsGoal(g: Generator, k: CrKey, s: Store)
    requires k in s.crs && !s.crs[k].deleting
    ensures var s' := WithFinalizer(s, k);
            && k in s'.crs && !s'.crs[k].deleting && FINALIZER in s'.crs[k].finalizers
            && s'.crs[k].spec == s.crs[k].spec
            && Goal(g, k, s') == Goal(g, k, s) && (Unblocked(g, k, s') <==> Unblocked(g, k, s))
  {
  }

  /** A live resource: the finalizer first, then the blocks. */
  lemma MarkingPass(g: Generator, k: CrKey, s: Store, script: seq<Tick>)
    requires Quiet(script) && k in s.crs && !s.crs[k].deleting
    ensures TowardsGoal(g, k, s, script, Run(g, k, s, AfterRead(k, s.crs[k]), script))
  {
    hide Run, Goal, Unblocked, WithFinalizer;
    var cr := s.crs[k];
    if FINALIZER in cr.finalizers {
      FirstBlockPass(g, k, s, cr, script);
    } else {
      CountFailures(script);
      FinalizerKeepsGoal(g, k, s);
      var s', cr', ok := MarkCall(g, k, s, script);
      if ok {
        FirstBlockPass(g, k, s', cr', Rest(script));
      } else {
        RunEnds(g, k, s', Stopped(true), Rest(script));
      }
    }
  }

  lemma BlocksPass(g: Generator, k: CrKey, s: Store, cr: Cr, script: seq<Tick>)
    requires Quiet(script) && Live(s, k) && FINALIZER in s.crs[k].finalizers && cr.spec == s.crs[k].spec
    ensures TowardsGoal(g, k, s, script, Run(g, k, s, Looking(cr, EsSts), script))
  {
    hide Run, Goal, AllFrom, Reached, Ready;
    var stop := LivePassTowardsGoal(g, k, s, cr, script);
    assert Limit(Val(EsSts)) == 0;
  }

  lemma FirstBlockPass(g: Generator, k: CrKey, s: Store, cr: Cr, script: seq<Tick>)
    requires Quiet(script) && k in s.crs && !s.crs[k].deleting && FINALIZER in s.crs[k].finalizers
    requires cr.spec == s.crs[k].spec
    ensures TowardsGoal(g, k, s, script, Run(g, k, s, FirstBlock(k, cr), script))
  {
    if k.name == "" {
      RunEnds(g, k, s, Stopped(false), script);
    } else {
      BlocksPass(g, k, s, cr, script);
    }
  }

  /** The theorem about one pass, over every store and every quiet script. */
  lemma PassTowardsGoal(g: Generator, k: CrKey, s: Store, script: seq<Tick>)
    requires Quiet(script)
    ensures TowardsGoal(g, k, s, script, Run(g, k, s, Reading, script))
  {
    CountFailures(script);
    var (s', r) := Serve(s, GetCr(k), First(script).fault);
    var p := Resume(g, k, Reading, r);
    if p.Terminal() {
      RunEnds(g, k, s, p, Rest(script));
    } else if s.crs[k].deleting {
      TeardownPass(g, k, s, Rest(script));
    } else {
      MarkingPass(g, k, s, Rest(script));
    }
  }

  // ---------- passes until one succeeds

  /** A failed request is queued again: at most n passes, until one does not fail. */
  function Retry(g: Generator, k: CrKey, s: Store, script: seq<Tick>, n: nat): Outcome
    decreases n
  {
    var o := Run(g, k, s, Reading, script);
    if n <= 1 || !o.pass.Failed() then o else Retry(g, k, o.store, o.script, n - 1)
  }

  /** Every generator the pass can need renders, and metrics are off.  (A resource that is
      absent, nameless or being deleted needs no generator.) */
  ghost predicate Steady(g: Generator, k: CrKey, s: Store) {
    Live(s, k) ==>
      var spec := s.crs[k].spec;
      && !MetricsOn(spec)
      && forall q :: InPlan(spec, q) ==> (CreateOnly(q) && Target(k, q) in s.children) || g(k, spec, q).Val?
  }

  lemma SteadyIsUnblocked(g: Generator, k: CrKey, s: Store)
    requires Steady(g, k, s)
    ensures Unblocked(g, k, s)
  {
  }

  /** A pass keeps the resource steady. */
  lemma PassKeepsSteady(g: Generator, k: CrKey, s: Store, script: seq<Tick>)
    requires Quiet(script) && Steady(g, k, s)
    ensures Steady(g, k, Run(g, k, s, Reading, script).store)
  {
    var o := Run(g, k, s, Reading, script);
    if Live(o.store, k) {
      PassTowardsGoal(g, k, s, script);
      GoalSpec(g, k, s);
      GoalSpec(g, k, o.store);
      var stop := OrderedProgress(g, k, s, script);
      var spec := s.crs[k].spec;
      forall q | InPlan(spec, q) && CreateOnly(q) && Target(k, q) in s.children
        ensures Target(k, q) in o.store.children {
        assert SameAt(s.children, o.store.children, Target(k, q));
      }
    }
  }

  lemma GoalSpec(g: Generator, k: CrKey, s: Store)
    ensures var s' := Goal(g, k, s);
            && (k in s'.crs ==>
                  k in s.crs && s'.crs[k].spec == s.crs[k].spec && s'.crs[k].deleting == s.crs[k].deleting)
            && (k in s.crs && !s.crs[k].deleting ==> k in s'.crs)
  {
  }

  /** Ordered progress.  However a pass over a live resource ends, it has executed its
      blocks up to a stopping point and left all later children as they were; of the
      resources it has at most added the finalizer to its own. */
  lemma OrderedProgress(g: Generator, k: CrKey, s: Store, script: seq<Tick>) returns (stop: Opt<Piece>)
    requires Quiet(script) && Live(s, k)
    ensures var o := Run(g, k, s, Reading, script);
            && Reached(g, k, s.crs[k].spec, s.children, Val(EsSts), o.store.children, stop)
            && (!o.pass.Failed() ==> stop == Nil)
            && (o.store == s.(children := o.store.children)
                || o.store == WithFinalizer(s, k).(children := o.store.children))
  {
    CountFailures(script);
    var cr := s.crs[k];
    stop := Val(EsSts);
    var (_, r) := Serve(s, GetCr(k), First(script).fault);
    var p := Resume(g, k, Reading, r);
    var rest := Rest(script);
    var s' := s;
    if p.Marking? {
      CountFailures(rest);
      s', r := Serve(s, Pending(k, p), First(rest).fault).0, Serve(s, Pending(k, p), First(rest).fault).1;
      assert s' == s || s' == WithFinalizer(s, k);
      p := Resume(g, k, p, r);
      rest := Rest(rest);
    }
    assert Run(g, k, s, Reading, script) == Run(g, k, s', p, rest);
    if p.Terminal() {
      RunEnds(g, k, s', p, rest);
    } else {
      stop := LivePassTowardsGoal(g, k, s', p.cr, rest);
    }
  }

  /** Bounded recovery: with at most n failing calls, with or without effect, one of the
      first n + 1 passes succeeds, and then the store is exactly the goal of the first. */
  lemma {:induction false} BoundedRecovery(g: Generator, k: CrKey, s: Store, script: seq<Tick>, n: nat)
    requires Quiet(script) && Failures(script) <= n && Steady(g, k, s)
    ensures var o := Retry(g, k, s, script, n + 1);
            !o.pass.Failed() && o.store == Goal(g, k, s)
    decreases n
  {
    PassTowardsGoal(g, k, s, script);
    SteadyIsUnblocked(g, k, s);
    var o := Run(g, k, s, Reading, script);
    if o.pass.Failed() {
      PassKeepsSteady(g, k, s, script);
      BoundedRecovery(g, k, o.store, o.script, n - 1);
    }
  }

  // ---------- what the goal is

  /** The goal of a resource that is being deleted: its children are gone, the finalizer is
      dropped, and the resource disappears unless another finalizer holds it. */
  lemma TeardownGoal(g: Generator, k: CrKey, s: Store)
    requires k in s.crs && s.crs[k].deleting && FINALIZER in s.crs[k].finalizers
    ensures var s', cr := Goal(g, k, s), s.crs[k];
            && (forall key :: key in Teardown(k, cr.spec) ==> key !in s'.children)
            && (forall key :: key !in Teardown(k, cr.spec) ==> SameAt(s.children, s'.children, key))
            && (forall q :: Base(q) ==> Target(k, q) !in s'.children)
            && (k in s'.crs <==> Without(cr.finalizers, FINALIZER) != [])
            && (k in s'.crs ==> s'.crs[k].finalizers == Without(cr.finalizers, FINALIZER) && s'.crs[k].spec == cr.spec)
            && (forall j :: j != k ==> (j in s'.crs <==> j in s.crs) && (j in s.crs ==> s'.crs[j] == s.crs[j]))
  {
    forall q | Base(q) ensures Target(k, q) !in Goal(g, k, s).children {
      TeardownKeys(k, s.crs[k].spec, Target(k, q));
    }
  }

  /** Teardown ends, whatever the spec, the generators and the ingress flag are. */
  lemma TeardownRecovery(g: Generator, k: CrKey, s: Store, script: seq<Tick>, n: nat)
    requires Quiet(script) && Failures(script) <= n
    requires k in s.crs && s.crs[k].deleting && FINALIZER in s.crs[k].finalizers
    ensures var o := Retry(g, k, s, script, n + 1);
            && !o.pass.Failed() && !(k in o.store.crs && FINALIZER in o.store.crs[k].finalizers)
            && forall q :: Base(q) ==> Target(k, q) !in o.store.children
  {
    BoundedRecovery(g, k, s, script, n);
    TeardownGoal(g, k, s);
  }

  /** Teardown leaves nothing of the resource behind if and only if there was no metrics object. */
  lemma CompleteTeardownIff(g: Generator, k: CrKey, s: Store, script: seq<Tick>, n: nat)
    requires Quiet(script) && Failures(script) <= n
    requires k in s.crs && s.crs[k].deleting && FINALIZER in s.crs[k].finalizers
    ensures var o := Retry(g, k, s, script, n + 1);
            (forall q :: Target(k, q) !in o.store.children) <==> (forall q :: !Base(q) ==> Target(k, q) !in s.children)
  {
    BoundedRecovery(g, k, s, script, n);
    TeardownGoal(g, k, s);
    var s' := Goal(g, k, s);
    forall q ensures Target(k, q) in s'.children <==> !Base(q) && Target(k, q) in s.children {
      if !Base(q) {
        NotTornDown(k, s.crs[k].spec, q);
      }
    }
  }

  lemma NotTornDown(k: CrKey, spec: Spec, q: Piece)
    requires !Base(q)
    ensures Target(k, q) !in Teardown(k, spec)
  {
    TeardownKeys(k, spec, Target(k, q));
    MtKeysCollide(k, k, q);
    forall x | Base(x) ensures Target(k, x) != Target(k, q) {
      TargetsDiffer(k, x, q);
    }
  }

  /** What the blocks make of the children: every block's child is settled, the create-only
      Services that existed keep their content and the others are as generated, and no
      other child changes. */
  ghost predicate Installed(g: Generator, k: CrKey, spec: Spec, c: ChildMap, c': ChildMap) {
    && (forall q :: InPlan(spec, q) ==> Settled(g, k, spec, c', q))
    && (forall q :: CreateOnly(q) && Target(k, q) in c ==> SameAt(c, c', Target(k, q)))
    && (forall q :: CreateOnly(q) && Target(k, q) !in c ==>
          Target(k, q) in c' && Wanted(g, k, spec, q) == Val(c'[Target(k, q)]))
    && (forall key :: (forall q :: InPlan(spec, q) ==> Target(k, q) != key) ==> SameAt(c, c', key))
  }

  lemma {:induction false} AllFromReached(g: Generator, k: CrKey, spec: Spec, c: ChildMap, from: Opt<Piece>)
    requires from.Val? ==> InPlan(spec, from.value)
    requires Ready(g, k, spec, c, Limit(from))
    ensures Reached(g, k, spec, c, from, AllFrom(g, k, spec, c, from), Nil)
    decreases 11 - Limit(from)
  {
    if from != Nil {
      var q := from.value;
      NextIsNext(spec, q);
      ReadyStep(g, k, spec, c, q);
      AllFromReached(g, k, spec, Put(g, k, spec, c, q), Next(spec, q));
      ReachedStep(g, k, spec, c, q, AllFrom(g, k, spec, c, from), Nil);
    }
  }

  lemma BlocksInstall(g: Generator, k: CrKey, spec: Spec, c: ChildMap)
    requires Ready(g, k, spec, c, 0)
    ensures Installed(g, k, spec, c, AllFrom(g, k, spec, c, Val(EsSts)))
  {
    AllFromReached(g, k, spec, c, Val(EsSts));
    forall q | CreateOnly(q) && Target(k, q) !in c
      ensures var c' := AllFrom(g, k, spec, c, Val(EsSts));
              Target(k, q) in c' && Wanted(g, k, spec, q) == Val(c'[Target(k, q)]) {
      CreatedByBlocks(g, k, spec, c, Val(EsSts), q);
    }
    ReachedInstalls(g, k, spec, c, AllFrom(g, k, spec, c, Val(EsSts)));
  }

  lemma ReachedInstalls(g: Generator, k: CrKey, spec: Spec, c: ChildMap, c': ChildMap)
    requires Reached(g, k, spec, c, Val(EsSts), c', Nil)
    requires forall q :: CreateOnly(q) && Target(k, q) !in c ==>
               Target(k, q) in c' && Wanted(g, k, spec, q) == Val(c'[Target(k, q)])
    ensures Installed(g, k, spec, c, c')
  {
    assert forall q :: InPlan(spec, q) <==> Between(spec, q, Val(EsSts), Nil);
  }

  /** The goal of a live resource: its children are installed and the resource carries the finalizer. */
  lemma LiveGoal(g: Generator, k: CrKey, s: Store)
    requires Live(s, k) && Ready(g, k, s.crs[k].spec, s.children, 0)
    ensures var s', spec := Goal(g, k, s), s.crs[k].spec;
            && Installed(g, k, spec, s.children, s'.children)
            && k in s'.crs && FINALIZER in s'.crs[k].finalizers && s'.crs[k].spec == spec && !s'.crs[k].deleting
            && (forall j :: j != k ==> (j in s'.crs <==> j in s.crs) && (j in s.crs ==> s'.crs[j] == s.crs[j]))
  {
    BlocksInstall(g, k, s.crs[k].spec, s.children);
  }

  lemma {:induction false} CreatedByBlocks(g: Generator, k: CrKey, spec: Spec, c: ChildMap, from: Opt<Piece>, q: Piece)
    requires from.Val? ==> InPlan(spec, from.value)
    requires InPlan(spec, q) && CreateOnly(q) && BlockReady(g, k, spec, c, q)
    requires if Limit(from) <= Ord(q) then Target(k, q) !in c
             else Target(k, q) in c && Wanted(g, k, spec, q) == Val(c[Target(k, q)])
    ensures var c' := AllFrom(g, k, spec, c, from);
            Target(k, q) in c' && Wanted(g, k, spec, q) == Val(c'[Target(k, q)])
    decreases 11 - Limit(from)
  {
    if from != Nil {
      var x := from.value;
      NextIsNext(spec, x);
      if x != q {
        OrdApart(x, q);
        PutKeepsOthers(g, k, spec, c, x, q);
        if Ord(x) < Ord(q) {
          PutKeepsReady(g, k, spec, c, x, q);
        }
      }
      CreatedByBlocks(g, k, spec, Put(g, k, spec, c, x), Next(spec, x), q);
    }
  }

  /** Without failing calls a pass over a live resource runs all its blocks if and only if
      what it needs renders and each block finds under the key it looks up what is under the key it writes. */
  lemma PassSucceedsIff(g: Generator, k: CrKey, s: Store, script: seq<Tick>)
    requires Quiet(script) && Failures(script) == 0 && Live(s, k)
    ensures !Run(g, k, s, Reading, script).pass.Failed() <==> Ready(g, k, s.crs[k].spec, s.children, 0)
  {
    PassTowardsGoal(g, k, s, script);
    if !Run(g, k, s, Reading, script).pass.Failed() {
      NotFailedWasReady(g, k, s, script);
    }
  }

  lemma NotFailedWasReady(g: Generator, k: CrKey, s: Store, script: seq<Tick>)
    requires Quiet(script) && Live(s, k) && !Run(g, k, s, Reading, script).pass.Failed()
    ensures Ready(g, k, s.crs[k].spec, s.children, 0)
  {
    CountFailures(script);
    CountFailures(Rest(script));
    var cr, rest := s.crs[k], Rest(script);
    RunEnds(g, k, s, Stopped(true), rest);
    if FINALIZER in cr.finalizers {
      var stop := LivePassTowardsGoal(g, k, s, cr, rest);
    } else {
      var (s', r) := Serve(s, Pending(k, Marking(cr)), First(rest).fault);
      RunEnds(g, k, s', Stopped(true), Rest(rest));
      assert s' == WithFinalizer(s, k);
      var stop := LivePassTowardsGoal(g, k, s', Resume(g, k, Marking(cr), r).cr, Rest(rest));
    }
  }

  lemma ReachedFromSettled(g: Generator, k: CrKey, spec: Spec, c: ChildMap, c': ChildMap, stop: Opt<Piece>)
    requires Reached(g, k, spec, c, Val(EsSts), c', stop)
    requires forall q :: InPlan(spec, q) ==> Settled(g, k, spec, c, q)
    ensures c' == c
  {
    forall key ensures (key in c' <==> key in c) && (key in c ==> c'[key] == c[key]) {
      if q :| Between(spec, q, Val(EsSts), stop) && Target(k, q) == key {
        assert Settled(g, k, spec, c, q) && Settled(g, k, spec, c', q);
        if CreateOnly(q) {
          assert SameAt(c, c', Target(k, q));
        }
      } else {
        assert SameAt(c, c', key);
      }
    }
  }

  /** Idempotence: a pass that begins where a successful one ended changes nothing at all,
      neither contents nor resource versions, even if it fails half-way. */
  lemma SecondPassChangesNothing(g: Generator, k: CrKey, s: Store, script: seq<Tick>)
    requires Quiet(script) && Live(s, k) && Ready(g, k, s.crs[k].spec, s.children, 0)
    ensures Run(g, k, Goal(g, k, s), Reading, script).store == Goal(g, k, s)
  {
    var s1 := Goal(g, k, s);
    LiveGoal(g, k, s);
    var stop := OrderedProgress(g, k, s1, script);
    ReachedFromSettled(g, k, s.crs[k].spec, s1.children, Run(g, k, s1, Reading, script).store.children, stop);
  }
}
