/** What a pass does to the store when nobody else acts: however it ends, it has
    executed a prefix of its blocks, and it never moves the goal. */
module Convergence {
  import opened Types
  import opened Apps
  import opened Children
  import opened Api
  import opened Reconcile

  type ChildMap = map<Key, Manifest>

  /** Nobody else changes the store and no Get is stale; any call may still fail, with or without effect. */
  predicate Quiet(script: seq<Tick>) {
    forall t :: t in script ==> t.before == Nil && !t.fault.Stale?
  }

  function Failures(script: seq<Tick>): nat {
    if script == [] then 0 else (if script[0].fault == Fine then 0 else 1) + Failures(script[1..])
  }

  // ---------- the simple form of a pass: its blocks one after another

  /** The spec the blocks generate from: with metrics on, the data centre has its default. */
  function Effective(spec: Spec): Spec {
    if MetricsOn(spec) then WithDc(spec) else spec
  }

  function Wanted(g: Generator, k: CrKey, spec: Spec, q: Piece): Opt<Manifest> {
    g(k, Effective(spec), q)
  }

  /** The effect of one block. */
  function Put(g: Generator, k: CrKey, spec: Spec, c: ChildMap, q: Piece): ChildMap {
    if CreateOnly(q) && Target(k, q) in c then c
    else match Wanted(g, k, spec, q)
      case Nil => c
      case Val(m) => c[Target(k, q) := m]
  }

  /** The effect of block q and all that follow it. */
  function AllFrom(g: Generator, k: CrKey, spec: Spec, c: ChildMap, q: Opt<Piece>): ChildMap
    decreases if q.Nil? then 0 else 11 - Ord(q.value)
  {
    match q
    case Nil => c
    case Val(x) => AllFrom(g, k, spec, Put(g, k, spec, c, x), Next(spec, x))
  }

  function Limit(q: Opt<Piece>): nat {
    if q.Nil? then 11 else Ord(q.value)
  }

  /** The child of block q is as the block wants it. */
  predicate Settled(g: Generator, k: CrKey, spec: Spec, c: ChildMap, q: Piece) {
    Target(k, q) in c && (CreateOnly(q) || Wanted(g, k, spec, q) == Val(c[Target(k, q)]))
  }

  /** Block q will get through on c when its calls succeed. */
  predicate BlockReady(g: Generator, k: CrKey, spec: Spec, c: ChildMap, q: Piece) {
    || (CreateOnly(q) && Target(k, q) in c)
    || (Wanted(g, k, spec, q).Val? && (Lookup(k, q) in c <==> Target(k, q) in c))
  }

  ghost predicate Ready(g: Generator, k: CrKey, spec: Spec, c: ChildMap, from: nat) {
    forall q :: InPlan(spec, q) && from <= Ord(q) ==> BlockReady(g, k, spec, c, q)
  }

  // ---------- facts about the blocks

  lemma TargetsDiffer(k: CrKey, p: Piece, q: Piece)
    ensures Target(k, p) == Target(k, q) <==> p == q
  {
    TargetsCollide(k, p, k, q);
    CassandraNames(k.name, k.name);
  }

  /** No block writes the key a later block looks up. */
  lemma LookupApart(k: CrKey, p: Piece, q: Piece)
    requires Ord(p) < Ord(q)
    ensures Target(k, p) != Lookup(k, q)
  {
    TargetsDiffer(k, p, q);
    TargetsDiffer(k, p, CaSvc);
    CassandraNames(k.name, k.name);
    NamesApart("mt-" + k.name, k.name);
    NamesApart(k.name, "mt-" + k.name);
    NamesApart("mt-" + k.name, "metrics-" + k.name);
  }

  lemma PutKeepsOthers(g: Generator, k: CrKey, spec: Spec, c: ChildMap, p: Piece, q: Piece)
    requires p != q
    ensures var c' := Put(g, k, spec, c, p);
            && (Target(k, q) in c' <==> Target(k, q) in c)
            && (Target(k, q) in c ==> c'[Target(k, q)] == c[Target(k, q)])
  {
    TargetsDiffer(k, p, q);
  }

  lemma PutKeepsSettled(g: Generator, k: CrKey, spec: Spec, c: ChildMap, p: Piece, q: Piece)
    requires Settled(g, k, spec, c, q)
    ensures Settled(g, k, spec, Put(g, k, spec, c, p), q)
  {
    if p != q {
      PutKeepsOthers(g, k, spec, c, p, q);
    }
  }

  lemma PutKeepsReady(g: Generator, k: CrKey, spec: Spec, c: ChildMap, p: Piece, q: Piece)
    requires Ord(p) < Ord(q)
    ensures BlockReady(g, k, spec, Put(g, k, spec, c, p), q) <==> BlockReady(g, k, spec, c, q)
  {
    PutKeepsOthers(g, k, spec, c, p, q);
    LookupApart(k, p, q);
  }

  lemma NextIsNext(spec: Spec, q: Piece)
    requires InPlan(spec, q)
    ensures Ord(q) < Limit(Next(spec, q))
    ensures Next(spec, q).Val? ==> InPlan(spec, Next(spec, q).value)
    ensures forall x :: InPlan(spec, x) && Ord(q) < Ord(x) ==> Limit(Next(spec, q)) <= Ord(x)
  {
  }

  /** Blocks whose children are settled change nothing. */
  lemma {:induction false} SettledBlocksSkip(g: Generator, k: CrKey, spec: Spec, c: ChildMap,
                                           q: Opt<Piece>, r: Opt<Piece>)
    requires q.Val? ==> InPlan(spec, q.value)
    requires r.Val? ==> InPlan(spec, r.value)
    requires Limit(q) <= Limit(r)
    requires forall x :: InPlan(spec, x) && Limit(q) <= Ord(x) < Limit(r) ==> Settled(g, k, spec, c, x)
    ensures AllFrom(g, k, spec, c, q) == AllFrom(g, k, spec, c, r)
    decreases Limit(r) - Limit(q)
  {
    if Limit(q) < Limit(r) {
      NextIsNext(spec, q.value);
      assert Settled(g, k, spec, c, q.value);
      assert Put(g, k, spec, c, q.value) == c;
      SettledBlocksSkip(g, k, spec, c, Next(spec, q.value), r);
    } else {
      OrdInjective(q, r);
    }
  }

  lemma OrdInjective(q: Opt<Piece>, r: Opt<Piece>)
    requires Limit(q) == Limit(r)
    ensures q == r
  {
  }

  // ---------- how far a run of blocks got

  predicate SameAt(c: ChildMap, c': ChildMap, key: Key) {
    (key in c' <==> key in c) && (key in c ==> c'[key] == c[key])
  }

  predicate Between(spec: Spec, x: Piece, q: Opt<Piece>, stop: Opt<Piece>) {
    InPlan(spec, x) && Limit(q) <= Ord(x) < Limit(stop)
  }

  /** From c, exactly the blocks from q up to, but not including, `stop` have been
      executed: their children are settled, nothing that was settled is lost, a child that
      is only ever created keeps its content, no other key has changed, and what is left to
      do leads to the same end. */
  ghost predicate Reached(g: Generator, k: CrKey, spec: Spec, c: ChildMap,
                          q: Opt<Piece>, c': ChildMap, stop: Opt<Piece>) {
    && Limit(q) <= Limit(stop)
    && (stop.Val? ==> InPlan(spec, stop.value))
    && AllFrom(g, k, spec, c', stop) == AllFrom(g, k, spec, c, q)
    && (forall x :: Between(spec, x, q, stop) ==> Settled(g, k, spec, c', x))
    && (forall x :: Settled(g, k, spec, c, x) ==> Settled(g, k, spec, c', x))
    && (forall x :: CreateOnly(x) && Target(k, x) in c ==> SameAt(c, c', Target(k, x)))
    && (forall key :: (forall x :: Between(spec, x, q, stop) ==> Target(k, x) != key) ==> SameAt(c, c', key))
  }

  lemma ReachedStep(g: Generator, k: CrKey, spec: Spec, c: ChildMap, q: Piece, c': ChildMap, stop: Opt<Piece>)
    requires InPlan(spec, q)
    requires var c1 := Put(g, k, spec, c, q);
             Settled(g, k, spec, c1, q) && Reached(g, k, spec, c1, Next(spec, q), c', stop)
    ensures Reached(g, k, spec, c, Val(q), c', stop)
  {
    var c1 := Put(g, k, spec, c, q);
    NextIsNext(spec, q);
    forall x | Between(spec, x, Val(q), stop) ensures Settled(g, k, spec, c', x) {
      if x == q {
        assert Settled(g, k, spec, c1, x);
      } else {
        OrdApart(x, q);
        assert Between(spec, x, Next(spec, q), stop);
      }
    }
    forall x | Settled(g, k, spec, c, x) ensures Settled(g, k, spec, c', x) {
      PutKeepsSettled(g, k, spec, c, q, x);
    }
    forall x | CreateOnly(x) && Target(k, x) in c ensures SameAt(c, c', Target(k, x)) {
      if x != q {
        PutKeepsOthers(g, k, spec, c, q, x);
      }
      assert SameAt(c1, c', Target(k, x));
    }
    forall key | forall x :: Between(spec, x, Val(q), stop) ==> Target(k, x) != key ensures SameAt(c, c', key) {
      assert Between(spec, q, Val(q), stop);
      assert SameAt(c, c1, key);
      assert forall x :: Between(spec, x, Next(spec, q), stop) ==> Between(spec, x, Val(q), stop);
      assert SameAt(c1, c', key);
    }
  }

  lemma OrdApart(x: Piece, q: Piece)
    requires x != q
    ensures Ord(x) != Ord(q)
  {
  }

  // ---------- the blocks of a pass

  /** The in-memory spec of a pass on its way to block q. */
  predicate SpecAt(spec: Spec, memory: Spec, q: Piece) {
    && (memory == spec || memory == Effective(spec))
    && (MetricsOn(spec) && Ord(MtSts) < Ord(q) ==> memory == Effective(spec))
  }

  lemma GeneratesWanted(g: Generator, k: CrKey, spec: Spec, cr: Cr, q: Piece)
    requires InPlan(spec, q) && SpecAt(spec, cr.spec, q)
    ensures var cr' := Adjusted(cr, q);
            && g(k, cr'.spec, q) == Wanted(g, k, spec, q)
            && Next(cr'.spec, q) == Next(cr.spec, q) == Next(spec, q)
            && (Next(spec, q).Val? ==> SpecAt(spec, cr'.spec, Next(spec, q).value))
            && (CreateOnly(q) ==> cr' == cr)
  {
    assert IgnoresDc(g, k, spec, q);
    NextIsNext(spec, q);
  }

  lemma CountFailures(script: seq<Tick>)
    requires Quiet(script)
    ensures Quiet(Rest(script)) && First(script).before == Nil && !First(script).fault.Stale?
    ensures Failures(script) == Failures(Rest(script)) + if First(script).fault == Fine then 0 else 1
  {
  }

  /** The Get of a block. */
  lemma LookCall(g: Generator, k: CrKey, s: Store, cr: Cr, q: Piece, script: seq<Tick>) returns (failed: bool)
    requires Quiet(script)
    ensures Run(g, k, s, Looking(cr, q), script)
         == Run(g, k, s, if failed then Stopped(true) else AfterLook(g, k, cr, q, Lookup(k, q) in s.children),
                Rest(script))
    ensures failed ==> First(script).fault != Fine
  {
    CountFailures(script);
    failed := First(script).fault != Fine;
  }

  /** The Create or Update of a block. */
  lemma WriteCall(g: Generator, k: CrKey, s: Store, p: Pass, script: seq<Tick>) returns (c': ChildMap, failed: bool)
    requires Quiet(script) && p.Writing?
    ensures Run(g, k, s, p, script)
         == Run(g, k, s.(children := c'), if failed then Stopped(true) else NextBlock(p.cr, p.piece), Rest(script))
    ensures var key := KeyOf(p.manifest);
            && (c' == s.children[key := p.manifest] || (failed && c' == s.children))
            && (c' != s.children ==> (p.found <==> key in s.children))
            && (!failed ==> (p.found <==> key in s.children))
            && (failed && (p.found <==> key in s.children) ==> First(script).fault != Fine)
  {
    CountFailures(script);
    var (s', r) := Serve(s, Pending(k, p), First(script).fault);
    c', failed := s'.children, !r.Accepted?;
  }

  /** One block: it is executed, or the pass stops.  A block that is ready is stopped only by a failing call. */
  lemma OneBlock(g: Generator, k: CrKey, spec: Spec, s: Store, cr: Cr, q: Piece, script: seq<Tick>)
    returns (c': ChildMap, failed: bool, rest: seq<Tick>)
    requires Quiet(script) && InPlan(spec, q) && SpecAt(spec, cr.spec, q)
    ensures Run(g, k, s, Looking(cr, q), script)
         == Run(g, k, s.(children := c'), if failed then Stopped(true) else NextBlock(Adjusted(cr, q), q), rest)
    ensures c' == Put(g, k, spec, s.children, q) || (failed && c' == s.children)
    ensures !failed ==> BlockReady(g, k, spec, s.children, q)
    ensures failed && c' != s.children ==> Wanted(g, k, spec, q).Val?
    ensures c' != s.children ==> (Lookup(k, q) in s.children <==> Target(k, q) in s.children)
    ensures Quiet(rest) && Failures(rest) <= Failures(script)
    ensures failed && BlockReady(g, k, spec, s.children, q) ==> Failures(rest) < Failures(script)
  {
    hide Run;
    GeneratesWanted(g, k, spec, cr, q);
    CountFailures(script);
    assert s.(children := s.children) == s;
    failed := LookCall(g, k, s, cr, q, script);
    c', rest := s.children, Rest(script);
    var found := Lookup(k, q) in c';
    if !failed && !(CreateOnly(q) && found) {
      var cr' := Adjusted(cr, q);
      match g(k, cr'.spec, q) {
        case Nil => failed := true;
        case Val(m) =>
          assert LabelledBy(g, k, cr'.spec, q);
          CountFailures(rest);
          c', failed := WriteCall(g, k, s, Writing(cr', q, found, m), rest);
          rest := Rest(rest);
      }
    }
  }

  /** Once block q is executed, what is left is as ready as it was. */
  lemma ReadyStep(g: Generator, k: CrKey, spec: Spec, c: ChildMap, q: Piece)
    requires InPlan(spec, q) && BlockReady(g, k, spec, c, q)
    ensures Settled(g, k, spec, Put(g, k, spec, c, q), q)
    ensures Ready(g, k, spec, c, Ord(q)) <==> Ready(g, k, spec, Put(g, k, spec, c, q), Limit(Next(spec, q)))
  {
    var c' := Put(g, k, spec, c, q);
    NextIsNext(spec, q);
    forall x | InPlan(spec, x) && Ord(q) < Ord(x)
      ensures Limit(Next(spec, q)) <= Ord(x)
      ensures BlockReady(g, k, spec, c', x) <==> BlockReady(g, k, spec, c, x) {
      PutKeepsReady(g, k, spec, c, q, x);
    }
    forall x | InPlan(spec, x) && Ord(q) <= Ord(x) ensures x == q || Ord(q) < Ord(x) {
      if x != q { OrdApart(x, q); }
    }
  }

  /** How the blocks from q on, run from store s, ended: they stopped at `stop`, and a
      pass whose blocks are all ready was stopped by a failing call only. */
  ghost predicate Ran(g: Generator, k: CrKey, spec: Spec, s: Store, q: Opt<Piece>, script: seq<Tick>, o: Outcome,
                      stop: Opt<Piece>) {
    && o.store == s.(children := o.store.children)
    && Reached(g, k, spec, s.children, q, o.store.children, stop)
    && (o.pass.Failed() || (o.pass.Converged? && stop == Nil && Ready(g, k, spec, s.children, Limit(q))))
    && Quiet(o.script) && Failures(o.script) <= Failures(script)
    && (o.pass.Failed() && Ready(g, k, spec, s.children, Limit(q)) ==> Failures(o.script) < Failures(script))
  }

  lemma StoppedInBlock(g: Generator, k: CrKey, spec: Spec, s: Store, q: Piece, script: seq<Tick>, o: Outcome)
    returns (stop: Opt<Piece>)
    requires InPlan(spec, q) && o.pass == Stopped(true) && o.store == s.(children := o.store.children)
    requires var c' := o.store.children;
             c' == s.children || (c' == Put(g, k, spec, s.children, q) && Wanted(g, k, spec, q).Val?)
    requires Quiet(o.script) && Failures(o.script) <= Failures(script)
    requires BlockReady(g, k, spec, s.children, q) ==> Failures(o.script) < Failures(script)
    ensures Ran(g, k, spec, s, Val(q), script, o, stop)
  {
    var c, c', next := s.children, o.store.children, Next(spec, q);
    if c' == c {
      stop := Val(q);
    } else {
      stop := next;
      NextIsNext(spec, q);
      assert Reached(g, k, spec, c', next, c', next);
      ReachedStep(g, k, spec, c, q, c', next);
    }
  }

  lemma RanStep(g: Generator, k: CrKey, spec: Spec, s: Store, q: Piece, script: seq<Tick>, rest: seq<Tick>,
                o: Outcome, stop: Opt<Piece>)
    requires InPlan(spec, q) && BlockReady(g, k, spec, s.children, q)
    requires Failures(rest) <= Failures(script)
    requires Ran(g, k, spec, s.(children := Put(g, k, spec, s.children, q)), Next(spec, q), rest, o, stop)
    ensures Ran(g, k, spec, s, Val(q), script, o, stop)
  {
    ReadyStep(g, k, spec, s.children, q);
    ReachedStep(g, k, spec, s.children, q, o.store.children, stop);
  }

  /** The blocks from q on, to the end of the pass. */
  lemma {:induction false} RunBlocks(g: Generator, k: CrKey, spec: Spec, s: Store, cr: Cr, q: Piece, script: seq<Tick>)
    returns (stop: Opt<Piece>)
    requires Quiet(script) && InPlan(spec, q) && SpecAt(spec, cr.spec, q)
    ensures Ran(g, k, spec, s, Val(q), script, Run(g, k, s, Looking(cr, q), script), stop)
    decreases 11 - Ord(q)
  {
    hide Lookup, Target, BlockReady;
    var c', failed, rest := OneBlock(g, k, spec, s, cr, q, script);
    var s', cr', next := s.(children := c'), Adjusted(cr, q), Next(spec, q);
    GeneratesWanted(g, k, spec, cr, q);
    NextIsNext(spec, q);
    if failed {
      RunEnds(g, k, s', Stopped(true), rest);
      stop := StoppedInBlock(g, k, spec, s, q, script, Run(g, k, s', Stopped(true), rest));
    } else {
      if next == Nil {
        RunEnds(g, k, s', Converged(cr'), rest);
        stop := Nil;
      } else {
        stop := RunBlocks(g, k, spec, s', cr', next.value, rest);
      }
      RanStep(g, k, spec, s, q, script, rest, Run(g, k, s', NextBlock(cr', q), rest), stop);
    }
  }

  lemma RunEnds(g: Generator, k: CrKey, s: Store, p: Pass, script: seq<Tick>)
    requires p.Terminal()
    ensures Run(g, k, s, p, script) == Outcome(s, p, script)
  {
  }
}
