/** Passes inside runs: a pass in any interleaving is the pass of module Reconcile on
    what it happens to see, and undisturbed calls are a quiet run. */
module Interleaving {
  import opened Types
  import opened Apps
  import opened Children
  import opened Api
  import opened Reconcile
  import opened World
  import opened Convergence

  function Calls(k: CrKey, faults: seq<Fault>): seq<Action> {
    if faults == [] then [] else [Advance(k, faults[0])] + Calls(k, faults[1..])
  }

  function Ticks(faults: seq<Fault>): seq<Tick> {
    if faults == [] then [] else [Tick(Nil, faults[0])] + Ticks(faults[1..])
  }

  /** Enough calls of one pass in a row run it to its end. */
  lemma {:induction false} CallsRun(g: Generator, w: World, k: CrKey, faults: seq<Fault>)
    requires k in w.passes && Rank(w.passes[k]) <= |faults|
    ensures var o := Run(g, k, w.store, w.passes[k], Ticks(faults));
            Exec(g, w, Calls(k, faults)) == World(o.store, w.passes[k := o.pass])
    decreases |faults|
  {
    var p := w.passes[k];
    if faults == [] {
      assert w.passes[k := p] == w.passes;
      RunEnds(g, k, w.store, p, []);
    } else {
      var w' := Apply(g, w, Advance(k, faults[0]));
      assert Calls(k, faults)[0] == Advance(k, faults[0]) && Calls(k, faults)[1..] == Calls(k, faults[1..]);
      assert Ticks(faults)[0] == Tick(Nil, faults[0]) && Ticks(faults)[1..] == Ticks(faults[1..]);
      if p.Terminal() {
        RunEnds(g, k, w.store, p, Ticks(faults));
        RunEnds(g, k, w.store, p, Ticks(faults[1..]));
        CallsRun(g, w, k, faults[1..]);
      } else {
        var (s', r) := Serve(w.store, Pending(k, p), faults[0]);
        RankDecreases(g, k, p, r);
        CallsRun(g, w', k, faults[1..]);
        var o := Run(g, k, s', Resume(g, k, p, r), Ticks(faults[1..]));
        assert w.passes[k := Resume(g, k, p, r)][k := o.pass] == w.passes[k := o.pass];
      }
    }
  }

  /** What resource k's pass sees in a run: the store before each of its calls, and the fault of the call. */
  function Witnessed(g: Generator, w: World, k: CrKey, acts: seq<Action>): seq<Tick>
    decreases |acts|
  {
    if acts == [] then []
    else
      (if acts[0].Advance? && acts[0].k == k && InFlight(w, k) then [Tick(Val(w.store), acts[0].fault)] else [])
      + Witnessed(g, Apply(g, w, acts[0]), k, acts[1..])
  }

  /** Any interleaving of users, crashes and other passes shows a pass nothing that the
      coroutine, and so the imperative Reconcile, is not proved for. */
  lemma {:induction false} PassInRun(g: Generator, w: World, k: CrKey, acts: seq<Action>, s: Store)
    requires k in w.passes
    requires forall a :: a in acts && a.k == k ==> !a.Begin? && !a.Crash?
    ensures var w' := Exec(g, w, acts);
            k in w'.passes &&
            (w'.passes[k].Terminal() ==> Run(g, k, s, w.passes[k], Witnessed(g, w, k, acts)).pass == w'.passes[k])
    decreases |acts|
  {
    var p := w.passes[k];
    if acts == [] {
      if p.Terminal() { RunEnds(g, k, s, p, []); }
    } else {
      var a, w1 := acts[0], Apply(g, w, acts[0]);
      if a.k != k {
        ApplyLocal(g, w, a, k);
      }
      if a.Advance? && a.k == k && InFlight(w, k) {
        var seen := Witnessed(g, w, k, acts);
        assert seen[0] == Tick(Val(w.store), a.fault) && seen[1..] == Witnessed(g, w1, k, acts[1..]);
        PassInRun(g, w1, k, acts[1..], w1.store);
      } else {
        assert w1.passes[k] == p;
        assert Witnessed(g, w, k, acts) == [] + Witnessed(g, w1, k, acts[1..]) == Witnessed(g, w1, k, acts[1..]);
        PassInRun(g, w1, k, acts[1..], s);
      }
    }
  }
}
