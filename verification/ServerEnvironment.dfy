/** The environment GenerateServerConfig builds by appending to the slice of its by-value argument. */
module ServerEnvironment {
  import opened Types
  import opened GoHeap
  import opened Apps

  /** The entry, written out, is the name and the value. */
  predicate Spells(e: EnvEntry, v: EnvVar) {
    e.name == v.name &&
    match e.value
    case Plain(text) => text == v.value
    case Host(before, at, after) => at.port.Nil? && before + at.host + after == v.value
    case Field(_) => false
  }

  /** After the template's two own entries, the server's environment spells the list that
      GenerateEnvironment builds, entry by entry. */
  lemma ServerEnvSpelled(lib: Library, k: CrKey, spec: Spec)
    requires GenerateServerConfig(lib, k, spec).Val?
    ensures var entries := GenerateServerConfig(lib, k, spec).value.container.env;
            var srv := spec.axonops.server;
            var list := ServerEnv(k.name, Items(srv.env), srv.metricsEnabled);
            |entries| == 2 + |list| && forall i :: 0 <= i < |list| ==> Spells(entries[2 + i], list[i])
  {
    var host := "ca-metrics-" + k.name;
    assert "" + host + "" == host;
  }

  /** What a slice shows depends on the front of its array only, up to its own end. */
  lemma ShownByFront(s: GoSlice<EnvVar>)
    requires s.Slice?
    ensures Listed(s) == Val(s.arr[..s.off + s.len][s.off..])
  {
  }

  /** The generated environment is the user's list and the two metrics entries.  The
      caller's slice header cannot change, and what it shows does not, even when the
      entries are written into the spare capacity of the caller's own array. */
  method GenerateEnvironment(name: string, env: GoSlice<EnvVar>, metricsEnabled: bool)
    returns (generated: GoSlice<EnvVar>)
    modifies SliceRefs(env)
    ensures Items(Listed(generated)) == ServerEnv(name, old(Items(Listed(env))), metricsEnabled)
    ensures Listed(env) == old(Listed(env))
    ensures !metricsEnabled ==> generated == env
    ensures metricsEnabled ==>
              if env.Slice? && env.len + 2 <= env.cap then generated == env.(len := env.len + 2)
              else fresh(SliceRefs(generated))
  {
    hide Listed;
    generated := env;
    if metricsEnabled {
      var hosts, dc := EnvVar("CQL_HOSTS", "ca-metrics-" + name), EnvVar("CQL_LOCAL_DC", "axonops1");
      generated := Append(generated, hosts);
      ghost var front := if env.Slice? then env.arr[..env.off + env.len] else [];
      if env.Slice? {
        ShownByFront(env);
      }
      generated := Append(generated, dc);
      if env.Slice? {
        assert generated.arr == env.arr ==> env.arr[..env.off + env.len + 1][..env.off + env.len] == front;
        assert env.arr[..env.off + env.len] == front;
        ShownByFront(env);
      }
    }
  }

  /** Two passes in a row over the same resource: nothing accumulates, and the second does
      not disturb what the first has generated. */
  method GenerateTwice(name: string, env: GoSlice<EnvVar>, metricsEnabled: bool)
    returns (first: GoSlice<EnvVar>, second: GoSlice<EnvVar>)
    modifies SliceRefs(env)
    ensures Listed(env) == old(Listed(env))
    ensures Items(Listed(first)) == Items(Listed(second)) == ServerEnv(name, old(Items(Listed(env))), metricsEnabled)
  {
    first := GenerateEnvironment(name, env, metricsEnabled);
    second := GenerateEnvironment(name, env, metricsEnabled);
    assert first == second || first == env || !(first.Slice? && env.Slice? && first.arr == env.arr);
  }
}
