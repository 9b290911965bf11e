/** Retrying with metrics on: the first pass whose Create of the metrics StatefulSet takes
    effect is the last one that can succeed, and it is the failing calls from that Create
    onwards that decide whether it does. */
module MetricsRetry {
  import opened Types
  import opened Apps
  import opened Children
  import opened Api
  import opened Reconcile
  import opened Convergence
  import opened Recovery

  /** A live resource with metrics on and nothing under the name ca-mt-n. */
  predicate Metered(s: Store, k: CrKey) {
    Live(s, k) && MetricsOn(s.crs[k].spec) && Lookup(k, MtSts) !in s.children
  }

  /** Its metrics StatefulSet is there, where no pass looks for it. */
  predicate Doomed(s: Store, k: CrKey) {
    Metered(s, k) && Target(k, MtSts) in s.children
  }

  lemma NothingCalledMt(k: CrKey, x: Piece)
    ensures Lookup(k, MtSts) != Target(k, x)
  {
    CassandraNames(k.name, k.name);
    MtKeysCollide(k, k, x);
  }

  /** However a pass ends, the resource stays metered, and a metrics StatefulSet stays. */
  lemma StaysMetered(g: Generator, k: CrKey, s: Store, script: seq<Tick>) returns (stop: Opt<Piece>)
    requires Quiet(script) && Metered(s, k)
    ensures var o := Run(g, k, s, Reading, script);
            && Metered(o.store, k) && o.store.crs[k].spec == s.crs[k].spec
            && Reached(g, k, s.crs[k].spec, s.children, Val(EsSts), o.store.children, stop)
            && (!o.pass.Failed() ==> stop == Nil)
            && (Target(k, MtSts) in s.children ==> Target(k, MtSts) in o.store.children)
  {
    var spec, c := s.crs[k].spec, s.children;
    stop := OrderedProgress(g, k, s, script);
    var c' := Run(g, k, s, Reading, script).store.children;
    forall x ensures Lookup(k, MtSts) != Target(k, x) { NothingCalledMt(k, x); }
    assert SameAt(c, c', Lookup(k, MtSts));
    if Target(k, MtSts) in c {
      if Between(spec, MtSts, Val(EsSts), stop) {
        assert Settled(g, k, spec, c', MtSts);
      } else {
        forall x ensures Between(spec, x, Val(EsSts), stop) ==> Target(k, x) != Target(k, MtSts) {
          TargetsDiffer(k, x, MtSts);
        }
        assert SameAt(c, c', Target(k, MtSts));
      }
    }
  }

  lemma DoomedFails(g: Generator, k: CrKey, s: Store, script: seq<Tick>)
    requires Quiet(script) && Doomed(s, k)
    ensures var o := Run(g, k, s, Reading, script);
            o.pass.Failed() && Doomed(o.store, k)
  {
    var stop := StaysMetered(g, k, s, script);
    var spec := s.crs[k].spec;
    assert InPlan(spec, MtSts) && !BlockReady(g, k, spec, s.children, MtSts);
    if !Run(g, k, s, Reading, script).pass.Failed() {
      NotFailedWasReady(g, k, s, script);
    }
  }

  /** A pass that has not got to the metrics StatefulSet leaves the rest as ready as it was. */
  lemma ReadyBefore(g: Generator, k: CrKey, spec: Spec, c: ChildMap, c': ChildMap, stop: Opt<Piece>)
    requires Reached(g, k, spec, c, Val(EsSts), c', stop) && Limit(stop) <= Ord(MtSts)
    requires Ready(g, k, spec, c, 0) && Lookup(k, MtSts) !in c && Lookup(k, MtSts) !in c'
    ensures Ready(g, k, spec, c', 0)
  {
    hide AllFrom, Wanted, Settled;
    forall y | Ord(MtSts) <= Ord(y) ensures SameAt(c, c', Target(k, y)) {
      LaterUntouched(g, k, spec, c, c', stop, y);
    }
    forall q | InPlan(spec, q) ensures BlockReady(g, k, spec, c', q) {
      assert BlockReady(g, k, spec, c, q);
      if Ord(MtSts) <= Ord(q) {
        assert SameAt(c, c', Target(k, q)) && SameAt(c, c', Target(k, CaSvc));
      } else if CreateOnly(q) && Target(k, q) in c {
        assert SameAt(c, c', Target(k, q));
      }
    }
  }

  lemma LaterUntouched(g: Generator, k: CrKey, spec: Spec, c: ChildMap, c': ChildMap, stop: Opt<Piece>, y: Piece)
    requires Reached(g, k, spec, c, Val(EsSts), c', stop) && Limit(stop) <= Ord(y)
    ensures SameAt(c, c', Target(k, y))
  {
    hide AllFrom, Settled, Target;
    forall x ensures Between(spec, x, Val(EsSts), stop) ==> Target(k, x) != Target(k, y) {
      TargetsDiffer(k, x, y);
    }
  }

  /** After a pass the next one can still succeed if and only if the metrics
      StatefulSet has not been created. */
  lemma RetryableIff(g: Generator, k: CrKey, s: Store, script: seq<Tick>)
    requires Quiet(script) && Metered(s, k) && Ready(g, k, s.crs[k].spec, s.children, 0)
    ensures var s' := Run(g, k, s, Reading, script).store;
            && Metered(s', k) && s'.crs[k].spec == s.crs[k].spec
            && (Ready(g, k, s'.crs[k].spec, s'.children, 0) <==> Target(k, MtSts) !in s'.children)
  {
    hide AllFrom;
    var spec, c := s.crs[k].spec, s.children;
    var stop := StaysMetered(g, k, s, script);
    var c' := Run(g, k, s, Reading, script).store.children;
    if Target(k, MtSts) in c' {
      assert InPlan(spec, MtSts) && !BlockReady(g, k, spec, c', MtSts);
    } else {
      assert Between(spec, MtSts, Val(EsSts), stop) ==> Settled(g, k, spec, c', MtSts);
      ReadyBefore(g, k, spec, c, c', stop);
    }
  }

  /** One of the passes that are tried fails although its metrics StatefulSet has been created. */
  ghost predicate Wrecked(g: Generator, k: CrKey, s: Store, script: seq<Tick>, n: nat)
    decreases n
  {
    var o := Run(g, k, s, Reading, script);
    o.pass.Failed() && (Target(k, MtSts) in o.store.children || (n > 1 && Wrecked(g, k, o.store, o.script, n - 1)))
  }

  /** With at most n failing calls, the first n + 1 passes either reach the goal or are wrecked;
      either way no pass succeeds after them. */
  lemma {:induction false} MetricsDichotomy(g: Generator, k: CrKey, s: Store, script: seq<Tick>, n: nat)
    requires Quiet(script) && Failures(script) <= n
    requires Metered(s, k) && Ready(g, k, s.crs[k].spec, s.children, 0)
    ensures var o := Retry(g, k, s, script, n + 1);
            && (o.pass.Failed() <==> Wrecked(g, k, s, script, n + 1))
            && (!o.pass.Failed() ==> o.store == Goal(g, k, s))
            && Doomed(o.store, k)
    decreases n
  {
    hide Run, Ready, AllFrom;
    var o := Run(g, k, s, Reading, script);
    PassTowardsGoal(g, k, s, script);
    RetryableIff(g, k, s, script);
    if !o.pass.Failed() {
      LiveGoal(g, k, s);
      assert Settled(g, k, s.crs[k].spec, o.store.children, MtSts);
    } else if Target(k, MtSts) in o.store.children {
      StaysDoomed(g, k, o.store, o.script, n);
    } else {
      MetricsDichotomy(g, k, o.store, o.script, n - 1);
    }
  }

  lemma {:induction false} StaysDoomed(g: Generator, k: CrKey, s: Store, script: seq<Tick>, n: nat)
    requires Quiet(script) && Doomed(s, k)
    ensures var o := Retry(g, k, s, script, n);
            o.pass.Failed() && Doomed(o.store, k)
    decreases n
  {
    DoomedFails(g, k, s, script);
    PassTowardsGoal(g, k, s, script);
    if n > 1 {
      var o := Run(g, k, s, Reading, script);
      StaysDoomed(g, k, o.store, o.script, n - 1);
    }
  }
}
