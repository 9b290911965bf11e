/** What if the Get of the resource itself is answered from a cache?  A pass may then work
    from any copy that was stored before.  Finalizer safety survives exactly those answers
    that do not show a live, protected resource where none is stored any more. */
module StaleReads {
  import opened Types
  import opened Apps
  import opened Children
  import opened Api
  import opened Reconcile
  import opened World
  import opened Safety
  import opened Exactness

  /** An action, or the answer to k's Get with an old copy. */
  datatype Move = Step(a: Action) | Misread(k: CrKey, cr: Cr)

  function KeyOfMove(m: Move): CrKey {
    match m
    case Step(a) => a.k
    case Misread(k, _) => k
  }

  function ApplyMove(g: Generator, w: World, m: Move): World {
    match m
    case Step(a) => Apply(g, w, a)
    case Misread(k, cr) =>
      if k in w.passes && w.passes[k] == Reading then w.(passes := w.passes[k := AfterRead(k, cr)]) else w
  }

  function ExecMoves(g: Generator, w: World, moves: seq<Move>): World
    decreases |moves|
  {
    if moves == [] then w else ExecMoves(g, ApplyMove(g, w, moves[0]), moves[1..])
  }

  ghost predicate Stored(past: seq<Store>, k: CrKey, cr: Cr) {
    exists s :: s in past && k in s.crs && s.crs[k] == cr
  }

  /** Every old copy was stored at some earlier moment. */
  ghost predicate FromCache(g: Generator, w: World, past: seq<Store>, moves: seq<Move>)
    decreases |moves|
  {
    moves != [] ==>
      && (moves[0].Misread? ==> Stored(past + [w.store], moves[0].k, moves[0].cr))
      && FromCache(g, ApplyMove(g, w, moves[0]), past + [w.store], moves[1..])
  }

  /** The answer does no harm: if it shows a live resource with the finalizer, one with the finalizer is stored. */
  predicate Timely(s: Store, k: CrKey, cr: Cr) {
    !cr.deleting && FINALIZER in cr.finalizers && k.name != "" ==> Guarded(s, k)
  }

  ghost predicate AllTimely(g: Generator, w: World, moves: seq<Move>)
    decreases |moves|
  {
    moves != [] ==>
      && (moves[0].Misread? ==> Timely(w.store, moves[0].k, moves[0].cr))
      && AllTimely(g, ApplyMove(g, w, moves[0]), moves[1..])
  }

  // ---------- old copies stay recognisable

  lemma SyncedStays(g: Generator, w: World, m: Move, k: CrKey, cr: Cr)
    requires Synced(w.store, k, cr)
    ensures Synced(ApplyMove(g, w, m).store, k, cr)
  {
    if m.Step? && m.a.k != k {
      ApplyLocal(g, w, m.a, k);
    } else if m.Step? && m.a.Advance? && InFlight(w, k) {
      hide Resume;
      ServeKeepsSynced(w.store, Pending(k, w.passes[k]), m.a.fault, k, cr);
    }
  }

  lemma ServeKeepsSynced(s: Store, c: Call, f: Fault, k: CrKey, cr: Cr)
    requires Synced(s, k, cr) && CallOf(c, k)
    ensures Synced(Serve(s, c, f).0, k, cr)
  {
  }

  ghost predicate PastSynced(past: seq<Store>, s: Store) {
    forall k, cr :: Stored(past, k, cr) ==> Synced(s, k, cr)
  }

  lemma PastStaysSynced(g: Generator, w: World, m: Move, past: seq<Store>)
    requires Sound(g, w) && PastSynced(past, w.store)
    ensures PastSynced(past + [w.store], w.store) && PastSynced(past + [w.store], ApplyMove(g, w, m).store)
  {
    hide Apply;
    forall k, cr | Stored(past + [w.store], k, cr)
      ensures Synced(w.store, k, cr) && Synced(ApplyMove(g, w, m).store, k, cr) {
      var s :| s in past + [w.store] && k in s.crs && s.crs[k] == cr;
      if s in past {
        assert Stored(past, k, cr);
      } else {
        assert Marked(w.store, k);
      }
      SyncedStays(g, w, m, k, cr);
    }
  }

  // ---------- timely answers are safe

  lemma MisreadKeeps(g: Generator, names: iset<CrKey>, w: World, k: CrKey, cr: Cr)
    requires Sound(g, w) && Owned(names, w) && Synced(w.store, k, cr) && Timely(w.store, k, cr)
    ensures Sound(g, ApplyMove(g, w, Misread(k, cr))) && Owned(names, ApplyMove(g, w, Misread(k, cr)))
  {
    hide Teardown, Target;
    var w' := ApplyMove(g, w, Misread(k, cr));
    forall j, q | j in names && Base(q) ensures Kept(w', j, q) {
      assert Kept(w, j, q);
      TeardownKeys(k, cr.spec, Target(j, q));
    }
  }

  lemma {:induction false} MovesKeep(g: Generator, names: iset<CrKey>, w: World, past: seq<Store>, moves: seq<Move>)
    requires Sound(g, w) && Owned(names, w) && NoMetricsClash(names) && forall m :: m in moves ==> KeyOfMove(m) in names
    requires PastSynced(past, w.store) && FromCache(g, w, past, moves) && AllTimely(g, w, moves)
    ensures Sound(g, ExecMoves(g, w, moves)) && Owned(names, ExecMoves(g, w, moves))
    decreases |moves|
  {
    hide Apply;
    if moves != [] {
      var m := moves[0];
      assert m in moves;
      PastStaysSynced(g, w, m, past);
      match m {
        case Step(a) =>
          ApplySound(g, w, a);
          ApplyOwned(g, names, w, a);
        case Misread(k, cr) => MisreadKeeps(g, names, w, k, cr);
      }
      MovesKeep(g, names, ApplyMove(g, w, m), past + [w.store], moves[1..]);
    }
  }

  /** Finalizer safety with cached answers, as long as they are timely. */
  lemma TimelyIsSafe(g: Generator, names: iset<CrKey>, moves: seq<Move>)
    requires NoMetricsClash(names) && forall m :: m in moves ==> KeyOfMove(m) in names
    requires FromCache(g, EMPTY, [], moves) && AllTimely(g, EMPTY, moves)
    ensures Safe(names, ExecMoves(g, EMPTY, moves))
  {
    MovesKeep(g, names, EMPTY, [], moves);
    OwnedIsSafe(names, ExecMoves(g, EMPTY, moves));
  }

  lemma OwnedIsSafe(names: iset<CrKey>, w: World)
    requires Owned(names, w)
    ensures Safe(names, w)
  {
    forall k, q | k in names && Base(q) && Target(k, q) in w.store.children ensures Guarded(w.store, k) {
      assert Kept(w, k, q);
    }
  }

  // ---------- and only those

  /** Two more calls of the misled pass, and an unprotected resource has a child. */
  lemma UntimelyIsUnsafe(g: Generator, names: iset<CrKey>, w: World, k: CrKey, cr: Cr)
    requires k in names && k in w.passes && w.passes[k] == Reading && !Timely(w.store, k, cr)
    requires g(k, cr.spec, EsSts).Val?
    ensures !Safe(names, Exec(g, ApplyMove(g, w, Misread(k, cr)), [Advance(k, Fine), Advance(k, Fine)]))
  {
    var a := Advance(k, Fine);
    var w1 := ApplyMove(g, w, Misread(k, cr));
    assert w1.passes[k] == Looking(cr, EsSts);
    var w2 := Apply(g, w1, a);
    assert LabelledBy(g, k, cr.spec, EsSts);
    var w3 := Apply(g, w2, a);
    assert [a, a][1..] == [a] && [a][1..] == [];
    assert Exec(g, w2, [a]) == w3;
    assert Base(EsSts) && Target(k, EsSts) in w3.store.children && !Guarded(w3.store, k);
  }

  /** Exactly the timely answers are safe, whatever happens afterwards. */
  lemma MisreadSafeIff(g: Generator, names: iset<CrKey>, moves: seq<Move>, k: CrKey, cr: Cr)
    requires NoMetricsClash(names) && k in names && forall m :: m in moves ==> KeyOfMove(m) in names
    requires FromCache(g, EMPTY, [], moves) && AllTimely(g, EMPTY, moves)
    requires var w := ExecMoves(g, EMPTY, moves); k in w.passes && w.passes[k] == Reading && Synced(w.store, k, cr)
    requires g(k, cr.spec, EsSts).Val?
    ensures var w := ExecMoves(g, EMPTY, moves);
            (forall acts :: Within(acts, names) ==> Safe(names, Exec(g, ApplyMove(g, w, Misread(k, cr)), acts)))
            <==> Timely(w.store, k, cr)
  {
    hide Exec, Apply;
    var w := ExecMoves(g, EMPTY, moves);
    var w1 := ApplyMove(g, w, Misread(k, cr));
    MovesKeep(g, names, EMPTY, [], moves);
    if Timely(w.store, k, cr) {
      MisreadKeeps(g, names, w, k, cr);
      forall acts | Within(acts, names) ensures Safe(names, Exec(g, w1, acts)) {
        ExecOwned(g, names, w1, acts);
        OwnedIsSafe(names, Exec(g, w1, acts));
      }
    } else {
      UntimelyIsUnsafe(g, names, w, k, cr);
      assert Within([Advance(k, Fine), Advance(k, Fine)], names);
    }
  }

  // ---------- a run with an untimely answer

  function Steps(acts: seq<Action>): seq<Move> {
    seq(|acts|, i requires 0 <= i < |acts| => Step(acts[i]))
  }

  /** The stores before each of the actions. */
  function Trail(g: Generator, w: World, acts: seq<Action>): seq<Store>
    decreases |acts|
  {
    if acts == [] then [] else [w.store] + Trail(g, Apply(g, w, acts[0]), acts[1..])
  }

  lemma {:induction false} StepsExec(g: Generator, w: World, past: seq<Store>, acts: seq<Action>, more: seq<Move>)
    requires FromCache(g, Exec(g, w, acts), past + Trail(g, w, acts), more)
    ensures FromCache(g, w, past, Steps(acts) + more)
    ensures ExecMoves(g, w, Steps(acts) + more) == ExecMoves(g, Exec(g, w, acts), more)
    decreases |acts|
  {
    if acts == [] {
      assert Steps(acts) + more == more && past + Trail(g, w, acts) == past;
    } else {
      var w1 := Apply(g, w, acts[0]);
      assert past + Trail(g, w, acts) == past + [w.store] + Trail(g, w1, acts[1..]);
      StepsExec(g, w1, past + [w.store], acts[1..], more);
      assert (Steps(acts) + more)[0] == Step(acts[0]) && (Steps(acts) + more)[1..] == Steps(acts[1..]) + more;
    }
  }

  /** k gets its finalizer, is deleted and torn down; a pass begins again, and its Get shows k as it was before. */
  function StaleRun(k: CrKey, spec: Spec, finalizers: seq<string>, faults: seq<Fault>): seq<Move> {
    Steps(Adding(k, spec, finalizers)) + (Steps(Dropping(k, faults) + [Crash(k), Begin(k)])
      + ([Misread(k, Cr(2, false, finalizers + [FINALIZER], spec))] + Steps([Advance(k, Fine), Advance(k, Fine)])))
  }

  lemma StaleRunIsUnsafe(g: Generator, k: CrKey, spec: Spec, finalizers: seq<string>, faults: seq<Fault>)
    requires FINALIZER !in finalizers && finalizers != [] && AllFine(faults) && Rank(Reading) <= |faults|
    requires k.name != "" && g(k, spec, EsSts).Val?
    ensures FromCache(g, EMPTY, [], StaleRun(k, spec, finalizers, faults))
    ensures !Safe(iset{k}, ExecMoves(g, EMPTY, StaleRun(k, spec, finalizers, faults)))
  {
    hide Exec, Apply, Adding, Dropping;
    var adding, dropping := Adding(k, spec, finalizers), Dropping(k, faults);
    var rest := dropping + [Crash(k), Begin(k)];
    var cr := Cr(2, false, finalizers + [FINALIZER], spec);
    var calls := [Advance(k, Fine), Advance(k, Fine)];
    Added(g, k, spec, finalizers);
    var w1 := Exec(g, EMPTY, adding);
    Dropped(g, k, spec, finalizers, w1, faults);
    ExecAppend(g, w1, dropping, [Crash(k), Begin(k)]);
    Restarts(g, Exec(g, w1, dropping), k);
    var w2 := Exec(g, w1, rest);
    var past := [] + Trail(g, EMPTY, adding) + Trail(g, w1, rest);
    assert w1.store in past by {
      StartsWith(g, w1, rest);
    }
    assert Stored(past + [w2.store], k, cr);
    var w3 := ApplyMove(g, w2, Misread(k, cr));
    UntimelyIsUnsafe(g, iset{k}, w2, k, cr);
    StepsExec(g, w3, past + [w2.store], calls, []);
    assert Steps(calls) + [] == Steps(calls);
    assert ([Misread(k, cr)] + Steps(calls))[1..] == Steps(calls);
    StepsExec(g, w1, [] + Trail(g, EMPTY, adding), rest, [Misread(k, cr)] + Steps(calls));
    StepsExec(g, EMPTY, [], adding, Steps(rest) + ([Misread(k, cr)] + Steps(calls)));
  }

  lemma StartsWith(g: Generator, w: World, acts: seq<Action>)
    requires acts != []
    ensures w.store in Trail(g, w, acts)
  {
  }

  lemma Restarts(g: Generator, w: World, k: CrKey)
    ensures var w' := Exec(g, w, [Crash(k), Begin(k)]);
            w'.store == w.store && k in w'.passes && w'.passes[k] == Reading
  {
    ExecStep(g, w, Crash(k), [Begin(k)]);
    ExecStep(g, Apply(g, w, Crash(k)), Begin(k), []);
    assert [Begin(k)] + [] == [Begin(k)] && [Crash(k)] + [Begin(k)] == [Crash(k), Begin(k)];
  }
}
