/** The reconciler as it is written: calls in a row, local variables, early returns.
    Every method is proved to do exactly what the coroutine of module Reconcile does,
    whatever the answers are and whatever others do to the store between the calls. */
module Controller {
  import opened Types
  import opened Apps
  import opened Children
  import opened Api
  import opened StringLists
  import opened Reconcile

  /** The error of a call: none, "not found", or any other. */
  datatype Err = Ok | Missing | Other

  function ErrOf(r: Reply): Err {
    match r
    case NotFound => Missing
    case Error => Other
    case _ => Ok
  }

  function IgnoreNotFound(e: Err): Err {
    if e == Missing then Ok else e
  }

  class Client {
    var store: Store
    var script: seq<Tick>

    constructor (store: Store, script: seq<Tick>)
      ensures this.store == store && this.script == script
    {
      this.store := store;
      this.script := script;
    }

    /** One call: others may have replaced the store, then the server answers. */
    method Do(c: Call) returns (r: Reply)
      modifies this
      ensures (store, r) == Serve(Seen(old(store), First(old(script))), c, First(old(script)).fault)
      ensures script == Rest(old(script)) && Fits(c, r)
    {
      var t := First(script);
      var (s, reply) := Serve(Seen(store, t), c, t.fault);
      store, script, r := s, Rest(script), reply;
    }
  }

  class Reconciler {
    const client: Client
    const generate: Generator

    constructor (client: Client, generate: Generator)
      ensures this.client == client && this.generate == generate
    {
      this.client := client;
      this.generate := generate;
    }

    /** What becomes of the store, the pass and the script from pass p on. */
    ghost function RunFrom(k: CrKey, p: Pass): Outcome
      reads client
    {
      Run(generate, k, client.store, p, client.script)
    }

    /** One call of the pass, which the coroutine is waiting for in p. */
    method Issue(k: CrKey, ghost p: Pass, c: Call) returns (r: Reply)
      requires !p.Terminal() && c == Pending(k, p)
      modifies client
      ensures Fits(c, r)
      ensures RunFrom(k, Resume(generate, k, p, r)) == old(RunFrom(k, p))
    {
      r := client.Do(c);
    }

    /** getSts, getDeployment, getService and getIngress. */
    method GetObject(k: CrKey, ghost p: Pass, key: Key) returns (found: bool, err: Err, ghost r: Reply)
      requires !p.Terminal() && Pending(k, p) == GetChild(key)
      modifies client
      ensures found == r.Found? && err == ErrOf(r) && Fits(GetChild(key), r)
      ensures RunFrom(k, Resume(generate, k, p, r)) == old(RunFrom(k, p))
    {
      var reply := Issue(k, p, GetChild(key));
      found, err, r := reply.Found?, ErrOf(reply), reply;
    }

    /** deleteSts, deleteDeployment, deleteSvc and deleteIngress. */
    method DeleteObject(k: CrKey, ghost p: Pass, key: Key) returns (err: Err, ghost r: Reply)
      requires !p.Terminal() && Pending(k, p) == DeleteChild(key)
      modifies client
      ensures err == IgnoreNotFound(ErrOf(r)) && Fits(DeleteChild(key), r)
      ensures RunFrom(k, Resume(generate, k, p, r)) == old(RunFrom(k, p))
    {
      var reply := Issue(k, p, DeleteChild(key));
      err, r := IgnoreNotFound(ErrOf(reply)), reply;
    }

    /** The block the source repeats for every child: look up, generate, create or update. */
    method Block(k: CrKey, cr: Cr, q: Piece) returns (cr': Cr, failed: bool)
      modifies client
      ensures cr' == Adjusted(cr, q) || failed || CreateOnly(q)
      ensures CreateOnly(q) ==> cr' == cr
      ensures RunFrom(k, if failed then Stopped(true) else NextBlock(cr', q)) == old(RunFrom(k, Looking(cr, q)))
    {
      cr' := cr;
      var current, err, r := GetObject(k, Looking(cr, q), Lookup(k, q));
      if IgnoreNotFound(err) != Ok {
        return cr', true;
      }
      if CreateOnly(q) && current {
        return cr', false;
      }
      if q == MtSts && cr'.spec.cassandra.dc == "" {
        cr' := cr'.(spec := cr'.spec.(cassandra := cr'.spec.cassandra.(dc := "axonops1")));
      }
      assert cr' == Adjusted(cr, q);
      var generated := generate(k, cr'.spec, q);
      if generated.Nil? {
        return cr', true;
      }
      ghost var p := Writing(cr', q, current, generated.value);
      var w := Issue(k, p, if current then UpdateChild(generated.value) else CreateChild(generated.value));
      failed := ErrOf(w) != Ok;
    }

    /** Deletes the keys of one list in turn; `later` are those of the lists after it. */
    method DeleteAll(k: CrKey, ghost cr: Cr, keys: seq<Key>, ghost later: seq<Key>) returns (failed: bool)
      modifies client
      ensures RunFrom(k, if failed then Stopped(true) else Removing(cr, later))
              == old(RunFrom(k, Removing(cr, keys + later)))
    {
      assert keys[0..] == keys;
      for i := 0 to |keys|
        invariant RunFrom(k, Removing(cr, keys[i..] + later)) == old(RunFrom(k, Removing(cr, keys + later)))
      {
        ghost var rest := keys[i + 1..] + later;
        assert keys[i..] + later == [keys[i]] + rest;
        assert ([keys[i]] + rest)[1..] == rest;
        var err, r := DeleteObject(k, Removing(cr, [keys[i]] + rest), keys[i]);
        if err != Ok {
          return true;
        }
      }
      assert keys[|keys|..] + later == later;
      return false;
    }

    /** The deletion branch, when the operator's finalizer is present. */
    method Finalize(k: CrKey, cr: Cr) returns (failed: bool)
      modifies client
      ensures RunFrom(k, Stopped(failed)) == old(RunFrom(k, Removing(cr, Teardown(k, cr.spec))))
    {
      var statefulSets := ["es-" + k.name, "ca-" + k.name, "as-" + k.name];
      if cr.spec.axonops.server.metricsEnabled {
        statefulSets := statefulSets + ["ca-mt-" + k.name];
      }
      assert statefulSets == StatefulSetNames(k, cr.spec) && statefulSets[0..] == statefulSets;
      for i := 0 to |statefulSets|
        invariant RunFrom(k, Removing(cr, NamesToKeys(k, statefulSets[i..]) + DashKeys(k)))
                  == old(RunFrom(k, Removing(cr, Teardown(k, cr.spec))))
      {
        ghost var later := NamesToKeys(k, statefulSets[i + 1..]) + DashKeys(k);
        assert statefulSets[i..][1..] == statefulSets[i + 1..];
        var pair := [Key(StatefulSets, k.ns, statefulSets[i]), Key(Services, k.ns, statefulSets[i])];
        assert NamesToKeys(k, statefulSets[i..]) + DashKeys(k) == pair + later;
        failed := DeleteAll(k, cr, pair, later);
        if failed {
          return;
        }
      }
      assert NamesToKeys(k, statefulSets[|statefulSets|..]) + DashKeys(k) == DashKeys(k) + [];
      failed := DeleteAll(k, cr, DashKeys(k), []);
      if failed {
        return;
      }
      var finalizers := RemoveString(cr.finalizers, FINALIZER);
      var r := Issue(k, Removing(cr, []), UpdateCr(k, cr.(finalizers := finalizers)));
      failed := ErrOf(r) != Ok;
    }

    /** The finalizer branch for a live resource. */
    method AddFinalizer(k: CrKey, cr: Cr) returns (cr': Cr, failed: bool)
      requires !cr.deleting
      modifies client
      ensures RunFrom(k, if failed then Stopped(true) else FirstBlock(k, cr')) == old(RunFrom(k, AfterRead(k, cr)))
    {
      cr' := cr;
      var mine := ContainsString(cr'.finalizers, FINALIZER);
      if !mine {
        cr' := cr'.(finalizers := cr'.finalizers + [FINALIZER]);
        var r := Issue(k, Marking(cr), UpdateCr(k, cr'));
        if ErrOf(r) != Ok {
          return cr', true;
        }
        cr' := cr'.(rv := r.rv);
      }
      failed := false;
    }

    /** Steps 1 and 2: Elasticsearch and the dashboard. */
    method ElasticAndDashboard(k: CrKey, cr: Cr) returns (failed: bool)
      modifies client
      ensures RunFrom(k, if failed then Stopped(true) else AfterDashboard(cr)) == old(RunFrom(k, Looking(cr, EsSts)))
    {
      hide Run;
      var c: Cr;
      c, failed := Block(k, cr, EsSts);
      if failed { return; }
      c, failed := Block(k, cr, EsSvc);
      if failed { return; }
      c, failed := Block(k, cr, DsDep);
      if failed { return; }
      c, failed := Block(k, cr, DsSvc);
      if failed { return; }
      if cr.spec.axonops.dashboard.ingress.enabled {
        c, failed := Block(k, cr, DsIng);
      }
    }

    ghost function AfterDashboard(cr: Cr): Pass {
      if MetricsOn(cr.spec) then Looking(cr, MtSts) else Looking(cr, AsSts)
    }

    /** Step 3: the Cassandra cluster for the metrics, if enabled. */
    method Metrics(k: CrKey, cr: Cr) returns (cr': Cr, failed: bool)
      modifies client
      ensures RunFrom(k, if failed then Stopped(true) else Looking(cr', AsSts)) == old(RunFrom(k, AfterDashboard(cr)))
    {
      cr', failed := cr, false;
      if cr'.spec.axonops.server.metricsEnabled {
        cr', failed := Block(k, cr', MtSts);
        if failed { return; }
        cr', failed := Block(k, cr', MtSvc);
      }
    }

    /** Steps 4 and 5: the server and the main Cassandra cluster. */
    method ServerAndCassandra(k: CrKey, cr: Cr) returns (failed: bool)
      modifies client
      ensures RunFrom(k, if failed then Stopped(true) else Converged(cr)) == old(RunFrom(k, Looking(cr, AsSts)))
    {
      hide Run;
      var c: Cr;
      c, failed := Block(k, cr, AsSts);
      if failed { return; }
      c, failed := Block(k, cr, AsSvc);
      if failed { return; }
      c, failed := Block(k, cr, CaSts);
      if failed { return; }
      c, failed := Block(k, cr, CaSvc);
    }

    /** The whole pass.  `failed` says that an error is returned, so that the request is queued again. */
    method Reconcile(k: CrKey) returns (failed: bool, ghost end: Pass)
      modifies client
      ensures old(Run(generate, k, client.store, Reading, client.script)) == Outcome(client.store, end, client.script)
      ensures end.Terminal() && failed == end.Failed()
    {
      var got := Issue(k, Reading, GetCr(k));
      if !got.FoundCr? {
        failed := IgnoreNotFound(ErrOf(got)) != Ok;
        return failed, Stopped(failed);
      }
      var cr := got.cr;
      if cr.deleting {
        failed := false;
        var mine := ContainsString(cr.finalizers, FINALIZER);
        if mine {
          failed := Finalize(k, cr);
        }
        return failed, Stopped(failed);
      }
      cr, failed := AddFinalizer(k, cr);
      if failed { return failed, Stopped(true); }
      if k.name == "" {
        return false, Stopped(false);
      }
      failed := ElasticAndDashboard(k, cr);
      if failed { return failed, Stopped(true); }
      cr, failed := Metrics(k, cr);
      if failed { return failed, Stopped(true); }
      failed := ServerAndCassandra(k, cr);
      return failed, if failed then Stopped(true) else Converged(cr);
    }
  }
}
