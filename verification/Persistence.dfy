/** What is settled stays settled: later passes of the same resource write what is already
    there, however they are interrupted. */
module Persistence {
  import opened Types
  import opened Apps
  import opened Children
  import opened Api
  import opened Reconcile
  import opened World
  import opened Safety
  import opened Convergence
  import opened Progress

  /** A pass that works from `spec`. */
  ghost predicate OnSpec(g: Generator, k: CrKey, spec: Spec, p: Pass) {
    match p
    case Marking(cr) => cr.spec == spec
    case Removing(_, _) => false
    case Looking(cr, q) => InPlan(spec, q) && SpecAt(spec, cr.spec, q)
    case Writing(cr, q, _, m) =>
      && InPlan(spec, q) && Wanted(g, k, spec, q) == Val(m) && Next(cr.spec, q) == Next(spec, q)
      && (Next(spec, q).Val? ==> SpecAt(spec, cr.spec, Next(spec, q).value))
    case _ => true
  }

  /** The resource is live with `spec`, and so is its pass, if one is in flight. */
  ghost predicate Tracking(g: Generator, w: World, k: CrKey, spec: Spec) {
    && k in w.store.crs && !w.store.crs[k].deleting && w.store.crs[k].spec == spec
    && (k in w.passes ==> OnSpec(g, k, spec, w.passes[k]))
  }

  /** Nobody deletes k or changes its spec; everything else may happen. */
  predicate KeepsSpec(a: Action, k: CrKey, spec: Spec) {
    a.k == k ==> !a.UserDelete? && (a.UserEdit? ==> a.spec == spec)
  }

  lemma CallTracks(g: Generator, s: Store, k: CrKey, spec: Spec, p: Pass, f: Fault)
    requires PassOk(g, s, k, p) && !p.Terminal() && Tracking(g, World(s, map[k := p]), k, spec)
    ensures var (s', r) := Serve(s, Pending(k, p), f);
            Tracking(g, World(s', map[k := Resume(g, k, p, r)]), k, spec)
  {
    hide Teardown;
    if p.Looking? {
      LookTracks(g, s, k, spec, p, f);
    } else if p.Writing? {
      NextIsNext(spec, p.piece);
      assert Serve(s, Pending(k, p), f).0.crs == s.crs;
    }
  }

  lemma LookTracks(g: Generator, s: Store, k: CrKey, spec: Spec, p: Pass, f: Fault)
    requires p.Looking? && OnSpec(g, k, spec, p)
    ensures var (s', r) := Serve(s, Pending(k, p), f);
            s' == s && OnSpec(g, k, spec, Resume(g, k, p, r))
  {
    GeneratesWanted(g, k, spec, p.cr, p.piece);
    NextIsNext(spec, p.piece);
  }

  lemma ApplyTracks(g: Generator, w: World, a: Action, k: CrKey, spec: Spec)
    requires Sound(g, w) && Tracking(g, w, k, spec) && KeepsSpec(a, k, spec)
    ensures Tracking(g, Apply(g, w, a), k, spec)
  {
    if a.k != k {
      ApplyLocal(g, w, a, k);
    } else if a.Advance? && InFlight(w, k) {
      assert PassOk(g, w.store, k, w.passes[k]);
      CallTracks(g, w.store, k, spec, w.passes[k], a.fault);
    }
  }

  /** A call of k's own pass unsettles none of its children. */
  lemma CallKeepsSettled(g: Generator, s: Store, k: CrKey, spec: Spec, p: Pass, f: Fault, x: Piece)
    requires PassOk(g, s, k, p) && !p.Terminal() && OnSpec(g, k, spec, p) && Settled(g, k, spec, s.children, x)
    ensures Settled(g, k, spec, Serve(s, Pending(k, p), f).0.children, x)
  {
    ServeChildren(s, Pending(k, p), f);
    if p.Writing? {
      assert LabelledBy(g, k, p.cr.spec, p.piece);
      TargetsDiffer(k, p.piece, x);
    }
  }

  lemma ApplyKeepsSettled(g: Generator, names: iset<CrKey>, w: World, a: Action, k: CrKey, spec: Spec, x: Piece)
    requires Sound(g, w) && NoClash(names) && a.k in names && k in names && k.name != ""
    requires Tracking(g, w, k, spec) && Settled(g, k, spec, w.store.children, x)
    ensures Settled(g, k, spec, Apply(g, w, a).store.children, x)
  {
    if a.k != k {
      OthersLeave(g, names, w, a, k, x);
    } else if a.Advance? && InFlight(w, k) {
      assert PassOk(g, w.store, k, w.passes[k]);
      CallKeepsSettled(g, w.store, k, spec, w.passes[k], a.fault, x);
    }
  }

  /** Monotone progress, in any interleaving, with stale Gets, faults, crashes and restarted
      passes: while k's spec stays, a child that is as the spec wants it remains so. */
  lemma {:induction false} SettledStays(g: Generator, names: iset<CrKey>, w: World,
                                      acts: seq<Action>, k: CrKey, spec: Spec, x: Piece)
    requires Sound(g, w) && NoClash(names) && Within(acts, names) && k in names && k.name != ""
    requires Tracking(g, w, k, spec) && forall a :: a in acts ==> KeepsSpec(a, k, spec)
    requires Settled(g, k, spec, w.store.children, x)
    ensures Tracking(g, Exec(g, w, acts), k, spec) && Settled(g, k, spec, Exec(g, w, acts).store.children, x)
    decreases |acts|
  {
    if acts != [] {
      assert acts[0] in acts;
      ApplySound(g, w, acts[0]);
      ApplyTracks(g, w, acts[0], k, spec);
      ApplyKeepsSettled(g, names, w, acts[0], k, spec, x);
      SettledStays(g, names, Apply(g, w, acts[0]), acts[1..], k, spec, x);
    }
  }

  /** After a pass that ran all its blocks on the spec that is still stored, every child of
      the spec stays as it is wanted, through all later passes, until the spec is changed
      or the resource deleted. */
  lemma ConvergedStays(g: Generator, names: iset<CrKey>, before: seq<Action>, k: CrKey, later: seq<Action>)
    requires NoClash(names) && Within(before + later, names) && ReadsFresh(g, before, k) && k in names
    requires var w := Exec(g, EMPTY, before);
             && k in w.passes && w.passes[k].Converged? && k in w.store.crs && !w.store.crs[k].deleting
             && Effective(w.passes[k].cr.spec) == Effective(w.store.crs[k].spec)
             && forall a :: a in later ==> KeepsSpec(a, k, w.store.crs[k].spec)
    ensures var spec, c := Exec(g, EMPTY, before).store.crs[k].spec, Exec(g, EMPTY, before + later).store.children;
            forall q :: InPlan(spec, q) ==> Settled(g, k, spec, c, q)
  {
    var w := Exec(g, EMPTY, before);
    var spec, from := w.store.crs[k].spec, w.passes[k].cr.spec;
    assert forall a :: a in before || a in later ==> a in before + later;
    ExecSound(g, EMPTY, before);
    ProgressInAnyRun(g, names, before, k);
    assert PassOk(g, w.store, k, w.passes[k]);
    ExecAppend(g, EMPTY, before, later);
    forall q | InPlan(spec, q) ensures Settled(g, k, spec, Exec(g, w, later).store.children, q) {
      assert Settled(g, k, from, w.store.children, q);
      SettledStays(g, names, w, later, k, spec, q);
    }
  }
}
