/** The operator, the users and the API server together.  Every step is an action on
    one custom resource; a run is any sequence of actions, so that the calls of
    different passes, crashes and edits interleave in every possible way. */
module World {
  import opened Types
  import opened Apps
  import opened Children
  import opened Api
  import opened Reconcile

  /** At most one pass a resource is in flight; a pass that has ended stays until the next one begins. */
  datatype World = World(store: Store, passes: map<CrKey, Pass>)

  datatype Action =
    | UserCreate(k: CrKey, spec: Spec, finalizers: seq<string>)
    | UserEdit(k: CrKey, spec: Spec, finalizers: seq<string>)
    | UserDelete(k: CrKey)
    | Begin(k: CrKey)
    | Advance(k: CrKey, fault: Fault)
    | Crash(k: CrKey)

  const EMPTY := World(Store(map[], map[], map[]), map[])

  predicate InFlight(w: World, k: CrKey) {
    k in w.passes && !w.passes[k].Terminal()
  }

  /** Users and other controllers edit everything but never take the operator's finalizer away. */
  function Edited(s: Store, k: CrKey, spec: Spec, finalizers: seq<string>): Store {
    if k !in s.crs || (FINALIZER in s.crs[k].finalizers && FINALIZER !in finalizers) then s
    else Commit(s, k, s.crs[k].(spec := spec, finalizers := finalizers))
  }

  /** What one action does; an action that is not enabled does nothing. */
  function Apply(g: Generator, w: World, a: Action): World {
    match a
    case UserCreate(k, spec, finalizers) =>
      if k in w.store.crs then w else w.(store := Commit(w.store, k, Cr(0, false, finalizers, spec)))
    case UserEdit(k, spec, finalizers) => w.(store := Edited(w.store, k, spec, finalizers))
    case UserDelete(k) =>
      if k !in w.store.crs then w else w.(store := Commit(w.store, k, w.store.crs[k].(deleting := true)))
    case Begin(k) =>
      if InFlight(w, k) then w else w.(passes := w.passes[k := Reading])
    case Advance(k, fault) =>
      if !InFlight(w, k) then w
      else
        var (s, r) := Serve(w.store, Pending(k, w.passes[k]), fault);
        World(s, w.passes[k := Resume(g, k, w.passes[k], r)])
    case Crash(k) => w.(passes := w.passes - {k})
  }

  function Exec(g: Generator, w: World, acts: seq<Action>): World
    decreases |acts|
  {
    if acts == [] then w else Exec(g, Apply(g, w, acts[0]), acts[1..])
  }

  lemma {:induction false} ExecAppend(g: Generator, w: World, a: seq<Action>, b: seq<Action>)
    ensures Exec(g, w, a + b) == Exec(g, Exec(g, w, a), b)
    decreases |a|
  {
    if a == [] {
      assert a + b == b;
    } else {
      assert (a + b)[1..] == a[1..] + b;
      ExecAppend(g, Apply(g, w, a[0]), a[1..], b);
    }
  }

  predicate Guarded(s: Store, k: CrKey) {
    k in s.crs && FINALIZER in s.crs[k].finalizers
  }

  /** If the stored resource still has the copy's rv, it still is the copy. */
  predicate Synced(s: Store, k: CrKey, cr: Cr) {
    cr.rv <= Mark(s, k) && (k in s.crs && s.crs[k].rv == cr.rv ==> s.crs[k] == cr)
  }

  predicate IsSuffix<A(==)>(xs: seq<A>, ys: seq<A>) {
    |xs| <= |ys| && xs == ys[|ys| - |xs|..]
  }

  /** What holds of a pass in flight, whatever else happens in the meantime. */
  predicate PassOk(g: Generator, s: Store, k: CrKey, p: Pass) {
    match p
    case Marking(cr) => !cr.deleting && FINALIZER !in cr.finalizers && Synced(s, k, cr)
    case Removing(cr, todo) =>
      && cr.deleting && FINALIZER in cr.finalizers && Synced(s, k, cr)
      && IsSuffix(todo, Teardown(k, cr.spec))
    case Looking(cr, q) => k.name != "" && Guarded(s, k) && InPlan(cr.spec, q)
    case Writing(cr, q, _, m) => k.name != "" && Guarded(s, k) && InPlan(cr.spec, q) && g(k, cr.spec, q) == Val(m)
    case Converged(_) => k.name != ""
    case _ => true
  }

  ghost predicate Sound(g: Generator, w: World) {
    && (forall k :: Marked(w.store, k))
    && (forall k :: k in w.passes ==> PassOk(g, w.store, k, w.passes[k]))
  }

  /** A call on behalf of resource j. */
  predicate CallOf(c: Call, j: CrKey) {
    (c.GetCr? ==> c.k == j) && (c.UpdateCr? ==> c.k == j)
  }

  lemma ServeLocal(s: Store, c: Call, f: Fault, j: CrKey, k: CrKey)
    requires CallOf(c, j) && k != j
    ensures var s' := Serve(s, c, f).0;
            && (k in s'.crs <==> k in s.crs) && (k in s.crs ==> s'.crs[k] == s.crs[k])
            && (k in s'.marks <==> k in s.marks) && Mark(s', k) == Mark(s, k)
  {
  }

  /** An action leaves everything about the other resources alone. */
  lemma ApplyLocal(g: Generator, w: World, a: Action, k: CrKey)
    requires k != a.k
    ensures var w' := Apply(g, w, a);
            && (k in w'.store.crs <==> k in w.store.crs)
            && (k in w.store.crs ==> w'.store.crs[k] == w.store.crs[k])
            && (k in w'.store.marks <==> k in w.store.marks) && Mark(w'.store, k) == Mark(w.store, k)
            && (k in w'.passes <==> k in w.passes)
            && (k in w.passes ==> w'.passes[k] == w.passes[k])
  {
    if a.Advance? && InFlight(w, a.k) {
      ServeLocal(w.store, Pending(a.k, w.passes[a.k]), a.fault, a.k, k);
    }
  }

  lemma NextInPlan(spec: Spec, q: Piece)
    requires InPlan(spec, q)
    ensures Next(spec, q).Val? ==> InPlan(spec, Next(spec, q).value)
  {
  }

  /** The rv of the stored resource is never above its mark. */
  predicate Marked(s: Store, k: CrKey) {
    k in s.crs ==> s.crs[k].rv <= Mark(s, k)
  }

  /** One call of a pass that reads the resource or adds the finalizer. */
  lemma ReadOrMarkKeepsPass(g: Generator, s: Store, k: CrKey, p: Pass, f: Fault)
    requires Marked(s, k) && PassOk(g, s, k, p)
    requires p.Reading? || p.Marking?
    ensures var (s', r) := Serve(s, Pending(k, p), f);
            PassOk(g, s', k, Resume(g, k, p, r)) && Marked(s', k)
  {
  }

  /** One call of a pass that tears down. */
  lemma RemoveKeepsPass(g: Generator, s: Store, k: CrKey, p: Pass, f: Fault)
    requires Marked(s, k) && PassOk(g, s, k, p) && p.Removing?
    ensures var (s', r) := Serve(s, Pending(k, p), f);
            PassOk(g, s', k, Resume(g, k, p, r)) && Marked(s', k)
  {
    hide Teardown;
    if p.todo != [] {
      var all := Teardown(k, p.cr.spec);
      assert p.todo[1..] == all[|all| - |p.todo[1..]|..];
    }
  }

  /** One call of a pass that looks up a child. */
  lemma LookKeepsPass(g: Generator, s: Store, k: CrKey, p: Pass, f: Fault)
    requires PassOk(g, s, k, p) && p.Looking?
    ensures var (s', r) := Serve(s, Pending(k, p), f);
            PassOk(g, s', k, Resume(g, k, p, r)) && s'.crs == s.crs && s'.marks == s.marks
  {
    NextInPlan(p.cr.spec, p.piece);
  }

  /** One call of a pass that writes a child. */
  lemma WriteKeepsPass(g: Generator, s: Store, k: CrKey, p: Pass, f: Fault)
    requires PassOk(g, s, k, p) && p.Writing?
    ensures var (s', r) := Serve(s, Pending(k, p), f);
            PassOk(g, s', k, Resume(g, k, p, r)) && s'.crs == s.crs && s'.marks == s.marks
  {
    NextInPlan(p.cr.spec, p.piece);
  }

  /** A user's action on a resource is noticed by, or harmless to, the pass that works on it. */
  lemma UserKeepsPass(g: Generator, w: World, a: Action)
    requires Sound(g, w) && (a.UserCreate? || a.UserEdit? || a.UserDelete?)
    ensures var w' := Apply(g, w, a);
            && (a.k in w.passes ==> PassOk(g, w'.store, a.k, w.passes[a.k]))
            && Marked(w'.store, a.k)
  {
  }

  lemma CallKeepsPass(g: Generator, s: Store, k: CrKey, p: Pass, f: Fault)
    requires Marked(s, k) && PassOk(g, s, k, p) && !p.Terminal()
    ensures var (s', r) := Serve(s, Pending(k, p), f);
            PassOk(g, s', k, Resume(g, k, p, r)) && Marked(s', k)
  {
    if p.Looking? {
      LookKeepsPass(g, s, k, p, f);
    } else if p.Writing? {
      WriteKeepsPass(g, s, k, p, f);
    } else if p.Removing? {
      RemoveKeepsPass(g, s, k, p, f);
    } else {
      ReadOrMarkKeepsPass(g, s, k, p, f);
    }
  }

  lemma ApplySound(g: Generator, w: World, a: Action)
    requires Sound(g, w)
    ensures Sound(g, Apply(g, w, a))
  {
    var w' := Apply(g, w, a);
    forall k ensures Marked(w'.store, k) {
      assert Marked(w.store, k);
      if k != a.k {
        ApplyLocal(g, w, a, k);
      } else if a.Advance? && InFlight(w, k) {
        CallKeepsPass(g, w.store, k, w.passes[k], a.fault);
      } else if a.UserCreate? || a.UserEdit? || a.UserDelete? {
        UserKeepsPass(g, w, a);
      }
    }
    forall k | k in w'.passes ensures PassOk(g, w'.store, k, w'.passes[k]) {
      if k != a.k {
        ApplyLocal(g, w, a, k);
        assert PassOk(g, w.store, k, w.passes[k]);
      } else if a.Advance? && InFlight(w, k) {
        CallKeepsPass(g, w.store, k, w.passes[k], a.fault);
      } else if a.UserCreate? || a.UserEdit? || a.UserDelete? {
        UserKeepsPass(g, w, a);
      }
    }
  }

  lemma {:induction false} ExecSound(g: Generator, w: World, acts: seq<Action>)
    requires Sound(g, w)
    ensures Sound(g, Exec(g, w, acts))
    decreases |acts|
  {
    if acts != [] {
      ApplySound(g, w, acts[0]);
      ExecSound(g, Apply(g, w, acts[0]), acts[1..]);
    }
  }
}
