/** Passes of resources whose names do not clash do not interfere: any interleaving of
    the actions on one resource with those on others equals running them one after the other. */
module Independence {
  import opened Types
  import opened Apps
  import opened Children
  import opened Api
  import opened Reconcile
  import opened World
  import opened Safety
  import opened Convergence

  // ---------- footprints

  /** The child keys a pass of resource k may look up, write or delete. */
  ghost predicate Touches(k: CrKey, key: Key) {
    (exists q :: key == Target(k, q)) || MtKey(k, key)
  }

  predicate Apart(k: CrKey, j: CrKey) {
    && k != j
    && !MetricsClash(k, j) && !MetricsClash(j, k)
    && !MtClash(k, j) && !MtClash(j, k)
  }

  lemma ApartFootprints(k: CrKey, j: CrKey, key: Key)
    requires Apart(k, j) && Touches(k, key)
    ensures !Touches(j, key)
  {
    if Touches(j, key) {
      if p :| key == Target(k, p) {
        if q :| key == Target(j, q) {
          TargetsCollide(k, p, j, q);
        } else {
          MtKeysCollide(j, k, p);
        }
      } else {
        if q :| key == Target(j, q) {
          MtKeysCollide(k, j, q);
        } else {
          CassandraNames(k.name, j.name);
          NamesApart("mt-" + k.name, "mt-" + j.name);
          CassandraNames(j.name, k.name);
        }
      }
    }
  }

  /** Two resources have no key in common if and only if they are different and neither is
      called like the other with metrics- or mt- in front. */
  lemma FootprintsDisjointIff(k: CrKey, j: CrKey)
    ensures (forall key :: !(Touches(k, key) && Touches(j, key))) <==> Apart(k, j)
  {
    if Apart(k, j) {
      forall key ensures !(Touches(k, key) && Touches(j, key)) {
        if Touches(k, key) { ApartFootprints(k, j, key); }
      }
    } else {
      var key := CommonKey(k, j);
      assert Touches(k, key) && Touches(j, key);
    }
  }

  lemma CommonKey(k: CrKey, j: CrKey) returns (key: Key)
    requires !Apart(k, j)
    ensures Touches(k, key) && Touches(j, key)
  {
    if k == j {
      key := Target(k, EsSts);
    } else if MetricsClash(k, j) || MtClash(k, j) {
      key := Target(j, CaSts);
      assert MetricsClash(k, j) ==> key == Target(k, MtSts);
      MtKeysCollide(k, j, CaSts);
    } else {
      key := Target(k, CaSts);
      assert MetricsClash(j, k) ==> key == Target(j, MtSts);
      MtKeysCollide(j, k, CaSts);
    }
  }

  // ---------- what an action reads and writes

  /** The key of the child a call is about. */
  function ChildKey(c: Call): Opt<Key> {
    match c
    case GetCr(_) => Nil
    case UpdateCr(_, _) => Nil
    case GetChild(key) => Val(key)
    case CreateChild(m) => Val(KeyOf(m))
    case UpdateChild(m) => Val(KeyOf(m))
    case DeleteChild(key) => Val(key)
  }

  /** The child key of the call an action makes, if it makes one. */
  function ChildOf(w: World, a: Action): Opt<Key> {
    if !(a.Advance? && InFlight(w, a.k)) then Nil
    else ChildKey(Pending(a.k, w.passes[a.k]))
  }

  lemma ChildIsTouched(g: Generator, w: World, a: Action)
    requires Sound(g, w) && ChildOf(w, a).Val?
    ensures Touches(a.k, ChildOf(w, a).value)
  {
    var p := w.passes[a.k];
    assert PassOk(g, w.store, a.k, p);
    match p {
      case Looking(_, q) =>
        var key := Lookup(a.k, q);
        assert key == Target(a.k, q) || key == Target(a.k, CaSvc) || MtKey(a.k, key);
      case Writing(cr, q, _, _) => assert LabelledBy(g, a.k, cr.spec, q);
      case Removing(cr, todo) =>
        var all := Teardown(a.k, cr.spec);
        assert all[|all| - |todo|] == todo[0];
        TeardownKeys(a.k, cr.spec, todo[0]);
      case _ =>
    }
  }

  /** The two worlds agree about resource k. */
  predicate Agree(w: World, v: World, k: CrKey) {
    && (k in w.store.crs <==> k in v.store.crs) && (k in w.store.crs ==> w.store.crs[k] == v.store.crs[k])
    && (k in w.store.marks <==> k in v.store.marks) && (k in w.store.marks ==> w.store.marks[k] == v.store.marks[k])
    && (k in w.passes <==> k in v.passes) && (k in w.passes ==> w.passes[k] == v.passes[k])
  }

  lemma OtherResources(g: Generator, w: World, a: Action, k: CrKey)
    requires k != a.k
    ensures Agree(w, Apply(g, w, a), k)
  {
    ApplyLocal(g, w, a, k);
  }

  lemma OtherChildren(g: Generator, w: World, a: Action, key: Key)
    requires ChildOf(w, a) != Val(key)
    ensures SameAt(w.store.children, Apply(g, w, a).store.children, key)
  {
    if a.Advance? && InFlight(w, a.k) {
      ServeChildren(w.store, Pending(a.k, w.passes[a.k]), a.fault);
    }
  }

  lemma CrCallDetermined(s: Store, t: Store, c: Call, f: Fault, k: CrKey)
    requires CallOf(c, k) && ChildKey(c) == Nil && Agree(World(s, map[]), World(t, map[]), k)
    ensures var (s', r), (t', q) := Serve(s, c, f), Serve(t, c, f);
            r == q && Agree(World(s', map[]), World(t', map[]), k)
  {
  }

  lemma ChildCallDetermined(s: Store, t: Store, c: Call, f: Fault, key: Key)
    requires ChildKey(c) == Val(key) && SameAt(s.children, t.children, key)
    ensures var (s', r), (t', q) := Serve(s, c, f), Serve(t, c, f);
            && r == q && SameAt(s'.children, t'.children, key)
            && s' == s.(children := s'.children) && t' == t.(children := t'.children)
  {
  }

  /** A call depends only on its own resource and its own child. */
  lemma ServeDetermined(s: Store, t: Store, c: Call, f: Fault, k: CrKey)
    requires CallOf(c, k) && Agree(World(s, map[]), World(t, map[]), k)
    requires ChildKey(c).Val? ==> SameAt(s.children, t.children, ChildKey(c).value)
    ensures var (s', r), (t', q) := Serve(s, c, f), Serve(t, c, f);
            && r == q && Agree(World(s', map[]), World(t', map[]), k)
            && (ChildKey(c).Val? ==> SameAt(s'.children, t'.children, ChildKey(c).value))
  {
    hide Serve;
    match ChildKey(c) {
      case Nil => CrCallDetermined(s, t, c, f, k);
      case Val(key) => ChildCallDetermined(s, t, c, f, key);
    }
  }

  lemma ApplyDetermined(g: Generator, w: World, v: World, a: Action)
    requires Agree(w, v, a.k)
    requires ChildOf(w, a).Val? ==> SameAt(w.store.children, v.store.children, ChildOf(w, a).value)
    ensures Agree(Apply(g, w, a), Apply(g, v, a), a.k) && ChildOf(v, a) == ChildOf(w, a)
    ensures ChildOf(w, a).Val? ==>
              SameAt(Apply(g, w, a).store.children, Apply(g, v, a).store.children, ChildOf(w, a).value)
  {
    if a.Advance? && InFlight(w, a.k) {
      ServeDetermined(w.store, v.store, Pending(a.k, w.passes[a.k]), a.fault, a.k);
    }
  }

  lemma SameWorlds(w: World, v: World)
    requires forall k :: Agree(w, v, k)
    requires forall key :: SameAt(w.store.children, v.store.children, key)
    ensures w == v
  {
    forall k ensures (k in w.store.crs <==> k in v.store.crs) && (k in w.store.marks <==> k in v.store.marks)
                     && (k in w.passes <==> k in v.passes) {
      assert Agree(w, v, k);
    }
    forall key ensures key in w.store.children <==> key in v.store.children {
      assert SameAt(w.store.children, v.store.children, key);
    }
    assert w.store.crs == v.store.crs by {
      forall k | k in w.store.crs ensures w.store.crs[k] == v.store.crs[k] { assert Agree(w, v, k); }
    }
    assert w.store.marks == v.store.marks by {
      forall k | k in w.store.marks ensures w.store.marks[k] == v.store.marks[k] { assert Agree(w, v, k); }
    }
    assert w.passes == v.passes by {
      forall k | k in w.passes ensures w.passes[k] == v.passes[k] { assert Agree(w, v, k); }
    }
    assert w.store.children == v.store.children by {
      forall key | key in w.store.children ensures w.store.children[key] == v.store.children[key] {
        assert SameAt(w.store.children, v.store.children, key);
      }
    }
  }

  // ---------- metrics off

  predicate PassOff(p: Pass) {
    match p
    case Marking(cr) => !MetricsOn(cr.spec)
    case Removing(cr, _) => !MetricsOn(cr.spec)
    case Looking(cr, _) => !MetricsOn(cr.spec)
    case Writing(cr, _, _, _) => !MetricsOn(cr.spec)
    case _ => true
  }

  predicate MetricsOff(w: World, k: CrKey) {
    && (k in w.store.crs ==> !MetricsOn(w.store.crs[k].spec))
    && (k in w.passes ==> PassOff(w.passes[k]))
  }

  /** Metrics are off for k, and no user switches them on. */
  predicate MetricsFree(w: World, k: CrKey, acts: seq<Action>) {
    MetricsOff(w, k) && forall a :: a in acts && a.k == k && (a.UserCreate? || a.UserEdit?) ==> !MetricsOn(a.spec)
  }

  lemma OffStays(g: Generator, w: World, a: Action, k: CrKey)
    requires MetricsOff(w, k) && (a.k == k && (a.UserCreate? || a.UserEdit?) ==> !MetricsOn(a.spec))
    ensures MetricsOff(Apply(g, w, a), k)
  {
    if a.k != k {
      ApplyLocal(g, w, a, k);
    } else if a.Advance? && InFlight(w, k) {
      CallStaysOff(g, w.store, k, w.passes[k], a.fault);
    }
  }

  lemma CallStaysOff(g: Generator, s: Store, k: CrKey, p: Pass, f: Fault)
    requires !p.Terminal() && PassOff(p) && (k in s.crs ==> !MetricsOn(s.crs[k].spec))
    ensures var (s', r) := Serve(s, Pending(k, p), f);
            (k in s'.crs ==> !MetricsOn(s'.crs[k].spec)) && PassOff(Resume(g, k, p, r))
  {
    hide Teardown;
  }

  /** With metrics off, a call is about one of the nine base children. */
  lemma ChildIsBase(g: Generator, w: World, a: Action)
    requires Sound(g, w) && MetricsOff(w, a.k) && ChildOf(w, a).Val?
    ensures exists q :: Base(q) && ChildOf(w, a).value == Target(a.k, q)
  {
    var p := w.passes[a.k];
    assert PassOk(g, w.store, a.k, p);
    match p {
      case Looking(_, q) => assert Base(q) && Lookup(a.k, q) == Target(a.k, q);
      case Writing(cr, q, _, _) => assert Base(q) && LabelledBy(g, a.k, cr.spec, q);
      case Removing(cr, todo) =>
        var all := Teardown(a.k, cr.spec);
        assert all[|all| - |todo|] == todo[0];
        TeardownKeys(a.k, cr.spec, todo[0]);
      case _ =>
    }
  }

  // ---------- commuting

  /** Different resources whose names do not clash, or whose metrics are off. */
  predicate Share(w: World, k: CrKey, j: CrKey) {
    Apart(k, j) || (k != j && MetricsOff(w, k) && MetricsOff(w, j))
  }

  /** The two actions are on different resources and different children. */
  predicate Clear(w: World, a: Action, b: Action) {
    a.k != b.k && (ChildOf(w, a).Val? ==> ChildOf(w, b) != ChildOf(w, a))
  }

  lemma ShareIsClear(g: Generator, w: World, a: Action, b: Action)
    requires Sound(g, w) && Share(w, a.k, b.k)
    ensures Clear(w, a, b) && Clear(w, b, a)
  {
    if ChildOf(w, a).Val? && ChildOf(w, b) == ChildOf(w, a) {
      var key := ChildOf(w, a).value;
      if Apart(a.k, b.k) {
        ChildIsTouched(g, w, a);
        ChildIsTouched(g, w, b);
        ApartFootprints(a.k, b.k, key);
      } else {
        ChildIsBase(g, w, a);
        ChildIsBase(g, w, b);
        var p, q :| Base(p) && Base(q) && key == Target(a.k, p) && key == Target(b.k, q);
        TargetsCollide(a.k, p, b.k, q);
      }
    }
  }

  /** Half of it: doing b first does not change what a does. */
  lemma ActsTheSame(g: Generator, w: World, a: Action, b: Action)
    requires Clear(w, a, b)
    ensures var wb := Apply(g, w, b);
            && ChildOf(wb, a) == ChildOf(w, a)
            && Agree(Apply(g, w, a), Apply(g, wb, a), a.k)
            && (ChildOf(w, a).Val? ==>
                  SameAt(Apply(g, w, a).store.children, Apply(g, wb, a).store.children, ChildOf(w, a).value))
  {
    OtherResources(g, w, b, a.k);
    if ChildOf(w, a).Val? {
      OtherChildren(g, w, b, ChildOf(w, a).value);
    }
    ApplyDetermined(g, w, Apply(g, w, b), a);
  }

  lemma ActionsCommute(g: Generator, w: World, a: Action, b: Action)
    requires Sound(g, w) && Share(w, a.k, b.k)
    ensures Apply(g, Apply(g, w, a), b) == Apply(g, Apply(g, w, b), a)
  {
    var wa, wb := Apply(g, w, a), Apply(g, w, b);
    var ab, ba := Apply(g, wa, b), Apply(g, wb, a);
    ShareIsClear(g, w, a, b);
    ActsTheSame(g, w, a, b);
    ActsTheSame(g, w, b, a);
    forall k ensures Agree(ab, ba, k) {
      if k != b.k { OtherResources(g, wa, b, k); OtherResources(g, w, b, k); }
      if k != a.k { OtherResources(g, wb, a, k); OtherResources(g, w, a, k); }
    }
    forall key ensures SameAt(ab.store.children, ba.store.children, key) {
      if ChildOf(w, b) != Val(key) { OtherChildren(g, wa, b, key); OtherChildren(g, w, b, key); }
      if ChildOf(w, a) != Val(key) { OtherChildren(g, wb, a, key); OtherChildren(g, w, a, key); }
    }
    SameWorlds(ab, ba);
  }

  // ---------- serialisation

  function Only(k: CrKey, acts: seq<Action>): seq<Action> {
    if acts == [] then [] else (if acts[0].k == k then [acts[0]] else []) + Only(k, acts[1..])
  }

  function Others(k: CrKey, acts: seq<Action>): seq<Action> {
    if acts == [] then [] else (if acts[0].k == k then [] else [acts[0]]) + Others(k, acts[1..])
  }

  lemma OnlyHas(k: CrKey, acts: seq<Action>)
    ensures forall a :: a in Only(k, acts) ==> a.k == k && a in acts
  {
  }

  /** During acts, k can share the world with j. */
  predicate Shares(w: World, k: CrKey, j: CrKey, acts: seq<Action>) {
    Apart(k, j) || (k != j && MetricsFree(w, k, acts) && MetricsFree(w, j, acts))
  }

  lemma SharesStays(g: Generator, w: World, a: Action, k: CrKey, j: CrKey, acts: seq<Action>)
    requires Shares(w, k, j, [a] + acts)
    ensures Shares(Apply(g, w, a), k, j, acts)
  {
    assert a in [a] + acts && forall b :: b in acts ==> b in [a] + acts;
    if !Apart(k, j) {
      OffStays(g, w, a, k);
      OffStays(g, w, a, j);
    }
  }

  lemma SharesFewer(w: World, k: CrKey, j: CrKey, acts: seq<Action>, fewer: seq<Action>)
    requires Shares(w, k, j, acts) && forall a :: a in fewer ==> a in acts
    ensures Shares(w, k, j, fewer)
  {
  }

  /** An action on another resource slides past any number of k's. */
  lemma {:induction false} Slide(g: Generator, w: World, k: CrKey, acts: seq<Action>, b: Action)
    requires Sound(g, w) && Shares(w, k, b.k, acts) && forall a :: a in acts ==> a.k == k
    ensures Exec(g, Apply(g, w, b), acts) == Apply(g, Exec(g, w, acts), b)
    decreases |acts|
  {
    if acts != [] {
      var a := acts[0];
      assert a in acts && acts == [a] + acts[1..];
      ActionsCommute(g, w, a, b);
      ApplySound(g, w, a);
      SharesStays(g, w, a, k, b.k, acts[1..]);
      Slide(g, Apply(g, w, a), k, acts[1..], b);
    }
  }

  /** Non-interference: the actions on k can all be done first.  The other resources have
      names that do not clash with k's; or, if neither k nor they have metrics on, any other
      name will do.  Users' edits, crashes and failing calls of either side are included, and
      nothing in the world tells the difference: stored resources and their versions,
      children, and passes in flight. */
  lemma {:induction false} NonInterference(g: Generator, w: World, k: CrKey, acts: seq<Action>)
    requires Sound(g, w) && forall a :: a in acts ==> a.k == k || Shares(w, k, a.k, acts)
    ensures Exec(g, w, acts) == Exec(g, w, Only(k, acts) + Others(k, acts))
    decreases |acts|
  {
    hide Shares, Apply, Sound;
    if acts != [] {
      var x, rest := acts[0], acts[1..];
      var only, others := Only(k, rest), Others(k, rest);
      assert x in acts && acts == [x] + rest;
      ApplySound(g, w, x);
      forall a | a in rest && a.k != k ensures Shares(Apply(g, w, x), k, a.k, rest) {
        assert a in acts;
        SharesStays(g, w, x, k, a.k, rest);
      }
      NonInterference(g, Apply(g, w, x), k, rest);
      if x.k == k {
        assert Only(k, acts) + Others(k, acts) == [x] + (only + others);
        assert ([x] + (only + others))[1..] == only + others;
      } else {
        OnlyHas(k, rest);
        SharesFewer(w, k, x.k, acts, only);
        Slide(g, w, k, only, x);
        assert Only(k, acts) + Others(k, acts) == only + ([x] + others);
        ExecAppend(g, Apply(g, w, x), only, others);
        ExecAppend(g, w, only, [x] + others);
        assert ([x] + others)[1..] == others;
      }
    }
  }
}
