/** Resources side by side: recovery does not need the namespace to itself. */
module Neighbours {
  import opened Types
  import opened Apps
  import opened Children
  import opened Api
  import opened Reconcile
  import opened World
  import opened Convergence
  import opened Recovery
  import opened MetricsRetry
  import opened Interleaving
  import opened Independence

  // ---------- passes of one resource, one after another

  /** One pass: the faults of its calls, and whether the operator dies after them. */
  datatype Try = Try(faults: seq<Fault>, crashed: bool)

  /** Passes of k.  Calls beyond the end of a pass do nothing. */
  function Passes(k: CrKey, tries: seq<Try>): seq<Action> {
    if tries == [] then []
    else [Begin(k)] + (Calls(k, tries[0].faults) + if tries[0].crashed then [Crash(k)] else []) + Passes(k, tries[1..])
  }

  /** A crash leaves the store as a call that is refused would. */
  function Faults(t: Try): seq<Fault> {
    t.faults + if t.crashed then [Refused] else []
  }

  /** The pass may run to its end, unless it crashes, and none of its Gets is stale. */
  predicate Complete(t: Try) {
    (t.crashed || Rank(Reading) <= |t.faults|) && forall i :: 0 <= i < |t.faults| ==> !t.faults[i].Stale?
  }

  predicate AllComplete(tries: seq<Try>) {
    forall i :: 0 <= i < |tries| ==> Complete(tries[i])
  }

  /** Failing calls and crashes. */
  function Failing(tries: seq<Try>): nat {
    if tries == [] then 0 else Failures(Ticks(Faults(tries[0]))) + Failing(tries[1..])
  }

  lemma {:induction false} NotStaleIsQuiet(faults: seq<Fault>)
    requires forall i :: 0 <= i < |faults| ==> !faults[i].Stale?
    ensures Quiet(Ticks(faults))
  {
    if faults != [] {
      NotStaleIsQuiet(faults[1..]);
      assert Ticks(faults)[1..] == Ticks(faults[1..]);
    }
  }

  lemma {:induction false} CallsThenRefused(g: Generator, w: World, k: CrKey, faults: seq<Fault>)
    requires k in w.passes
    ensures Exec(g, w, Calls(k, faults)).store == Run(g, k, w.store, w.passes[k], Ticks(faults + [Refused])).store
    decreases |faults|
  {
    var p, script := w.passes[k], Ticks(faults + [Refused]);
    if p.Terminal() {
      RunEnds(g, k, w.store, p, script);
    }
    if faults == [] {
      if !p.Terminal() {
        RunEnds(g, k, w.store, Resume(g, k, p, Error), script[1..]);
      }
    } else {
      assert (faults + [Refused])[1..] == faults[1..] + [Refused];
      assert script[0] == Tick(Nil, faults[0]) && script[1..] == Ticks(faults[1..] + [Refused]);
      var w1 := Apply(g, w, Advance(k, faults[0]));
      assert Calls(k, faults)[0] == Advance(k, faults[0]) && Calls(k, faults)[1..] == Calls(k, faults[1..]);
      CallsThenRefused(g, w1, k, faults[1..]);
      if p.Terminal() {
        RunEnds(g, k, w.store, p, script[1..]);
      }
    }
  }

  lemma QuietTry(t: Try)
    requires Complete(t)
    ensures Quiet(Ticks(Faults(t)))
  {
    NotStaleIsQuiet(Faults(t));
  }

  /** One pass, crashed or not, in a run. */
  lemma OnePass(g: Generator, w: World, k: CrKey, t: Try, later: seq<Action>) returns (w2: World)
    requires !InFlight(w, k) && Complete(t)
    ensures w2.store == Run(g, k, w.store, Reading, Ticks(Faults(t))).store && !InFlight(w2, k)
    ensures Exec(g, w, [Begin(k)] + (Calls(k, t.faults) + if t.crashed then [Crash(k)] else []) + later)
         == Exec(g, w2, later)
  {
    hide Run;
    var crash := if t.crashed then [Crash(k)] else [];
    var calls, w1 := Calls(k, t.faults), Apply(g, w, Begin(k));
    w2 := Exec(g, w1, calls + crash);
    assert ([Begin(k)] + (calls + crash) + later)[1..] == (calls + crash) + later;
    ExecAppend(g, w1, calls + crash, later);
    ExecAppend(g, w1, calls, crash);
    if t.crashed {
      CallsThenRefused(g, w1, k, t.faults);
      Crashes(g, Exec(g, w1, calls), k);
    } else {
      CallsRun(g, w1, k, t.faults);
      assert t.faults + [] == t.faults && calls + crash == calls;
      QuietTry(t);
      PassTowardsGoal(g, k, w.store, Ticks(t.faults));
    }
  }

  lemma Crashes(g: Generator, w: World, k: CrKey)
    ensures var w' := Exec(g, w, [Crash(k)]);
            w'.store == w.store && !InFlight(w', k)
  {
    assert [Crash(k)][1..] == [];
  }

  /** A pass leaves a store that is its own goal as it is. */
  lemma GoalStays(g: Generator, k: CrKey, s: Store, script: seq<Tick>)
    requires Quiet(script) && Steady(g, k, s) && s == Goal(g, k, s)
    ensures Run(g, k, s, Reading, script).store == s
  {
    if Live(s, k) {
      SteadyIsUnblocked(g, k, s);
      SecondPassChangesNothing(g, k, s, script);
    } else {
      CountFailures(script);
      var r := Serve(s, GetCr(k), First(script).fault).1;
      NothingToDo(g, k, s);
      RunEnds(g, k, s, Resume(g, k, Reading, r), Rest(script));
    }
  }

  lemma NothingToDo(g: Generator, k: CrKey, s: Store)
    requires !Live(s, k) && s == Goal(g, k, s)
    ensures k in s.crs ==> AfterRead(k, s.crs[k]) == Stopped(false)
  {
  }

  /** With fewer failing calls and crashes than passes, the store ends at the goal. */
  lemma {:induction false} PassesReachGoal(g: Generator, w: World, k: CrKey, tries: seq<Try>)
    requires !InFlight(w, k) && Steady(g, k, w.store) && AllComplete(tries)
    requires Failing(tries) < |tries| || w.store == Goal(g, k, w.store)
    ensures Exec(g, w, Passes(k, tries)).store == Goal(g, k, w.store)
    decreases |tries|
  {
    if tries != [] {
      var s, script := w.store, Ticks(Faults(tries[0]));
      var w2 := OnePass(g, w, k, tries[0], Passes(k, tries[1..]));
      QuietTry(tries[0]);
      PassTowardsGoal(g, k, s, script);
      SteadyIsUnblocked(g, k, s);
      PassKeepsSteady(g, k, s, script);
      if s == Goal(g, k, s) {
        GoalStays(g, k, s, script);
      }
      PassesReachGoal(g, w2, k, tries[1..]);
    }
  }

  // ---------- the same with metrics on

  /** One of the passes fails although its metrics StatefulSet has been created. */
  ghost predicate WreckedTries(g: Generator, k: CrKey, s: Store, tries: seq<Try>)
    decreases |tries|
  {
    tries != [] &&
    var o := Run(g, k, s, Reading, Ticks(Faults(tries[0])));
    o.pass.Failed() && (Target(k, MtSts) in o.store.children || WreckedTries(g, k, o.store, tries[1..]))
  }

  lemma {:induction false} PassesStayDoomed(g: Generator, w: World, k: CrKey, tries: seq<Try>)
    requires !InFlight(w, k) && Doomed(w.store, k) && AllComplete(tries)
    ensures Doomed(Exec(g, w, Passes(k, tries)).store, k)
    decreases |tries|
  {
    if tries != [] {
      var w2 := OnePass(g, w, k, tries[0], Passes(k, tries[1..]));
      QuietTry(tries[0]);
      DoomedFails(g, k, w.store, Ticks(Faults(tries[0])));
      PassesStayDoomed(g, w2, k, tries[1..]);
    }
  }

  /** Passes after a successful one fail, and change nothing. */
  lemma {:induction false} PassesLeaveGoal(g: Generator, w: World, k: CrKey, tries: seq<Try>, s: Store)
    requires !InFlight(w, k) && AllComplete(tries)
    requires Live(s, k) && Ready(g, k, s.crs[k].spec, s.children, 0) && w.store == Goal(g, k, s)
    ensures Exec(g, w, Passes(k, tries)).store == w.store
    decreases |tries|
  {
    if tries != [] {
      var w2 := OnePass(g, w, k, tries[0], Passes(k, tries[1..]));
      QuietTry(tries[0]);
      SecondPassChangesNothing(g, k, s, Ticks(Faults(tries[0])));
      PassesLeaveGoal(g, w2, k, tries[1..], s);
    }
  }

  lemma {:induction false} PassesReachOrWreck(g: Generator, w: World, k: CrKey, tries: seq<Try>)
    requires !InFlight(w, k) && AllComplete(tries) && Failing(tries) < |tries|
    requires Metered(w.store, k) && Ready(g, k, w.store.crs[k].spec, w.store.children, 0)
    ensures var s' := Exec(g, w, Passes(k, tries)).store;
            Doomed(s', k) && (s' == Goal(g, k, w.store) || WreckedTries(g, k, w.store, tries))
    decreases |tries|
  {
    hide Run, Ready;
    var s, script, rest := w.store, Ticks(Faults(tries[0])), tries[1..];
    var o := Run(g, k, s, Reading, script);
    var w2 := OnePass(g, w, k, tries[0], Passes(k, rest));
    QuietTry(tries[0]);
    PassTowardsGoal(g, k, s, script);
    RetryableIff(g, k, s, script);
    if !o.pass.Failed() {
      LiveGoal(g, k, s);
      assert Settled(g, k, s.crs[k].spec, o.store.children, MtSts);
      PassesLeaveGoal(g, w2, k, rest, s);
    } else if Target(k, MtSts) in o.store.children {
      PassesStayDoomed(g, w2, k, rest);
    } else {
      PassesReachOrWreck(g, w2, k, rest);
    }
  }

  // ---------- recovery among others

  /** What the store holds of resource k: its own entry, and the children under its keys. */
  ghost predicate SameOf(k: CrKey, s: Store, t: Store) {
    && (k in s.crs <==> k in t.crs) && (k in s.crs ==> s.crs[k] == t.crs[k])
    && forall key :: Touches(k, key) ==> SameAt(s.children, t.children, key)
  }

  lemma OtherActionLeaves(g: Generator, w: World, a: Action, k: CrKey)
    requires Sound(g, w) && Apart(k, a.k)
    ensures SameOf(k, w.store, Apply(g, w, a).store)
  {
    OtherResources(g, w, a, k);
    forall key | Touches(k, key) ensures SameAt(w.store.children, Apply(g, w, a).store.children, key) {
      ApartFootprints(k, a.k, key);
      if ChildOf(w, a).Val? {
        ChildIsTouched(g, w, a);
      }
      OtherChildren(g, w, a, key);
    }
  }

  lemma {:induction false} OthersLeave(g: Generator, w: World, acts: seq<Action>, k: CrKey)
    requires Sound(g, w) && forall a :: a in acts ==> Apart(k, a.k)
    ensures SameOf(k, w.store, Exec(g, w, acts).store)
    decreases |acts|
  {
    if acts != [] {
      assert acts[0] in acts;
      var w1 := Apply(g, w, acts[0]);
      OtherActionLeaves(g, w, acts[0], k);
      ApplySound(g, w, acts[0]);
      OthersLeave(g, w1, acts[1..], k);
      var c, c1, c' := w.store.children, w1.store.children, Exec(g, w, acts).store.children;
      forall key | Touches(k, key) ensures SameAt(c, c', key) {
        assert SameAt(c, c1, key) && SameAt(c1, c', key);
      }
    }
  }

  lemma OthersApart(k: CrKey, acts: seq<Action>)
    requires forall a :: a in acts ==> a.k == k || Apart(k, a.k)
    ensures forall a :: a in Others(k, acts) ==> Apart(k, a.k)
  {
  }

  /** Passes of k in company are passes of k alone, as far as the store of k goes. */
  lemma AmongOthers(g: Generator, w: World, k: CrKey, tries: seq<Try>, acts: seq<Action>)
    requires Sound(g, w) && forall a :: a in acts ==> a.k == k || Apart(k, a.k)
    requires Only(k, acts) == Passes(k, tries)
    ensures SameOf(k, Exec(g, w, Passes(k, tries)).store, Exec(g, w, acts).store)
  {
    var own, others := Only(k, acts), Others(k, acts);
    NonInterference(g, w, k, acts);
    ExecAppend(g, w, own, others);
    ExecSound(g, w, own);
    OthersApart(k, acts);
    OthersLeave(g, Exec(g, w, own), others, k);
  }

  /** Bounded recovery in company: passes of k, with fewer failing calls and crashes than
      passes, in any interleaving with users, passes, faults and crashes of resources it does
      not clash with.  In the end the store holds of k exactly what its goal was at the start. */
  lemma RecoveryAmongOthers(g: Generator, w: World, k: CrKey, tries: seq<Try>, acts: seq<Action>)
    requires Sound(g, w) && !InFlight(w, k) && Steady(g, k, w.store)
    requires forall a :: a in acts ==> a.k == k || Apart(k, a.k)
    requires Only(k, acts) == Passes(k, tries) && AllComplete(tries) && Failing(tries) < |tries|
    ensures SameOf(k, Goal(g, k, w.store), Exec(g, w, acts).store)
  {
    AmongOthers(g, w, k, tries, acts);
    PassesReachGoal(g, w, k, tries);
  }

  /** With metrics on, in the same company: the goal is reached, unless one of the passes fails
      after its metrics StatefulSet has been created; either way no later pass can succeed. */
  lemma MetricsAmongOthers(g: Generator, w: World, k: CrKey, tries: seq<Try>, acts: seq<Action>)
    requires Sound(g, w) && !InFlight(w, k)
    requires Metered(w.store, k) && Ready(g, k, w.store.crs[k].spec, w.store.children, 0)
    requires forall a :: a in acts ==> a.k == k || Apart(k, a.k)
    requires Only(k, acts) == Passes(k, tries) && AllComplete(tries) && Failing(tries) < |tries|
    ensures var s' := Exec(g, w, acts).store;
            Doomed(s', k) && (SameOf(k, Goal(g, k, w.store), s') || WreckedTries(g, k, w.store, tries))
  {
    AmongOthers(g, w, k, tries, acts);
    PassesReachOrWreck(g, w, k, tries);
    assert Touches(k, Target(k, MtSts)) && Touches(k, Lookup(k, MtSts));
  }
}
