/** The Loom plugin's configuration wiring, as functions on a value of its state: the
    configuration container and Loom's list of remap configurations. Loom wires everything at
    once; there is no enabled marker to wait for. */
module LoomModel {
  import opened Results
  import opened Names
  import opened Gradle

  /** `include`, the configuration Loom nests in the mod jar. */
  const Include: string := "include"

  /** A Loom remap configuration (such as `modImplementation`) and the configuration it
      feeds (`targetConfigurationName`, such as `implementation`). */
  datatype RemapConfiguration = RemapConfiguration(name: string, target: string)

  datatype LoomState = LoomState(container: Container, remaps: seq<RemapConfiguration>)

  /** The container is well formed and Loom's remap configurations are in it. */
  ghost predicate Valid(s: LoomState)
  {
    && WellFormed(s.container)
    && forall i :: 0 <= i < |s.remaps| ==> s.remaps[i].name in s.container.configs
  }

  /** `remapConfigurations.find { it.targetConfigurationName.get() == target }`: the first
      remap configuration feeding `target`. */
  function FindRemap(remaps: seq<RemapConfiguration>, target: string): (r: Option<RemapConfiguration>)
    ensures r.None? <==> forall i :: 0 <= i < |remaps| ==> remaps[i].target != target
    ensures r.Some? ==> exists i :: 0 <= i < |remaps| && remaps[i] == r.value && r.value.target == target
                                    && forall j :: 0 <= j < i ==> remaps[j].target != target
  {
    if remaps == [] then None
    else if remaps[0].target == target then Some(remaps[0])
    else
      var r := FindRemap(remaps[1..], target);
      assert forall i :: 1 <= i < |remaps| ==> remaps[i] == remaps[1..][i - 1];
      if r.Some? then
        ghost var k :| 0 <= k < |remaps[1..]| && remaps[1..][k] == r.value && r.value.target == target
                       && forall j :: 0 <= j < k ==> remaps[1..][j].target != target;
        assert remaps[k + 1] == r.value;
        r
      else r
  }

  /** `name` has both proxies: its remap configuration extends the mod proxy and `name` itself
      extends the regular proxy. */
  predicate Proxied(s: LoomState, name: string)
  {
    && ModProxyName(name) in s.container.configs
    && RegularProxyName(name) in s.container.configs
    && FindRemap(s.remaps, name).Some?
    && Extends(s.container, FindRemap(s.remaps, name).value.name, ModProxyName(name))
    && Extends(s.container, name, RegularProxyName(name))
  }

  /** What a Loom step keeps: every configuration and every edge stays, and Loom's remap list
      only grows at its end. */
  ghost predicate Keeps(s: LoomState, s': LoomState)
  {
    && s.container.order <= s'.container.order
    && s.container.configs.Keys <= s'.container.configs.Keys
    && (forall n :: n in s.container.configs ==>
          s.container.configs[n].extendsFrom <= s'.container.configs[n].extendsFrom)
    && s.remaps <= s'.remaps
  }

  /** `createProxyConfigurations(target, configuration)` on Loom, for a configuration in hand:
      fails unless a remap configuration feeds it; then creates the mod proxy, which the remap
      configuration extends, and the regular proxy, which the configuration itself extends.
      There is no guard against names already taken: `create` fails on them. */
  function CreateProxy(s: LoomState, name: string): (r: (LoomState, Outcome))
    requires Valid(s) && name in s.container.configs
    ensures Valid(r.0) && r.0.remaps == s.remaps && Keeps(s, r.0)
    ensures FindRemap(s.remaps, name).None? ==> r == (s, Fail(NoRemapConfiguration(name)))
    ensures r.1.Pass? <==> FindRemap(s.remaps, name).Some?
                           && ModProxyName(name) !in s.container.configs
                           && RegularProxyName(name) !in s.container.configs
    ensures FindRemap(s.remaps, name).Some? && ModProxyName(name) in s.container.configs ==>
              r == (s, Fail(AlreadyExists(ModProxyName(name))))
    ensures r.1.Pass? ==>
              && r.0.container.order == s.container.order + [ModProxyName(name), RegularProxyName(name)]
              && Extends(r.0.container, FindRemap(s.remaps, name).value.name, ModProxyName(name))
              && Extends(r.0.container, name, RegularProxyName(name))
    ensures r.1.Pass? ==> Proxied(r.0, name)
  {
    match FindRemap(s.remaps, name)
    case None => (s, Fail(NoRemapConfiguration(name)))
    case Some(remap) =>
      var mod, reg := ModProxyName(name), RegularProxyName(name);
      ProxyRolesDiffer(name);
      var r1 := CreateIn(s.container, mod, true);
      if r1.1.Fail? then (s, r1.1)
      else
        var c1 := ExtendIn(r1.0, remap.name, mod);
        var r2 := CreateIn(c1, reg, true);
        if r2.1.Fail? then (s.(container := c1), r2.1)
        else
          assert s.container.order + [mod] + [reg] == s.container.order + [mod, reg];
          (s.(container := ExtendIn(r2.0, name, reg)), Pass)
  }

  /** `configureJiJConfiguration` on Loom: `include` extends the configuration at once, or
      the call fails when there is no `include`. */
  function ConfigureJiJ(s: LoomState, config: string): (r: (LoomState, Outcome))
    requires Valid(s) && config in s.container.configs
    ensures Valid(r.0) && r.0.remaps == s.remaps && r.0.container.order == s.container.order
    ensures r.1.Pass? <==> Include in s.container.configs
    ensures r.1.Fail? ==> r == (s, Fail(UnknownConfiguration(Include)))
    ensures r.1.Pass? ==> r.0.container == ExtendIn(s.container, Include, config)
  {
    match Lookup(s.container, Include)
    case Err(e) => (s, Fail(e))
    case Ok(i) => (s.(container := ExtendIn(s.container, i, config)), Pass)
  }

  /** The `modstitchJiJ` step of the common `apply` on Loom. */
  function CreateJiJ(s: LoomState): (r: (LoomState, Outcome))
    requires Valid(s)
    ensures Valid(r.0)
    ensures JiJ in s.container.configs ==> r == (s, Fail(AlreadyExists(JiJ)))
    ensures JiJ !in s.container.configs ==>
              (r.1.Pass? <==> Include in s.container.configs)
    ensures r.1.Pass? ==>
              && r.0.container.order == s.container.order + [JiJ]
              && JiJ in r.0.container.configs && !r.0.container.configs[JiJ].transitive
              && Extends(r.0.container, Include, JiJ)
  {
    var r1 := CreateIn(s.container, JiJ, false);
    if r1.1.Fail? then (s, r1.1)
    else
      assert JiJ != Include;
      ConfigureJiJ(s.(container := r1.0), JiJ)
  }

  /** Loom's `createRemapConfigurations(sourceSet)`, given the remap configurations Loom makes
      for that source set: each is created and recorded, in order. */
  function RegisterRemaps(s: LoomState, rs: seq<RemapConfiguration>): (r: (LoomState, Outcome))
    requires Valid(s)
    ensures Valid(r.0) && Keeps(s, r.0)
    ensures r.1.Pass? ==> r.0.remaps == s.remaps + rs
    decreases |rs|
  {
    if rs == [] then (s, Pass)
    else
      var r1 := CreateIn(s.container, rs[0].name, true);
      if r1.1.Fail? then (s, r1.1)
      else
        var s1 := LoomState(r1.0, s.remaps + [rs[0]]);
        var r2 := RegisterRemaps(s1, rs[1..]);
        assert r2.1.Pass? ==> s.remaps + [rs[0]] + rs[1..] == s.remaps + rs;
        r2
  }

  /** The common `forEach` on Loom: each selected name is fetched with `getByName` and proxied;
      the first failure stops the rest. */
  function ProxyEach(s: LoomState, names: seq<string>): (r: (LoomState, Outcome))
    requires Valid(s)
    ensures Valid(r.0) && r.0.remaps == s.remaps && Keeps(s, r.0)
    ensures r.1.Pass? ==> forall n :: n in names ==> n in r.0.container.configs && Proxied(r.0, n)
    decreases |names|
  {
    if names == [] then (s, Pass)
    else
      match Lookup(s.container, names[0])
      case Err(e) => (s, Fail(e))
      case Ok(n) =>
        var r1 := CreateProxy(s, n);
        if r1.1.Fail? then r1
        else
          var r2 := ProxyEach(r1.0, names[1..]);
          ProxiedPersists(r1.0, r2.0, n);
          assert forall m :: m in names ==> m == names[0] || m in names[1..];
          r2
  }

  /** A proxied configuration stays proxied once the remap list is left alone. */
  lemma ProxiedPersists(s: LoomState, s': LoomState, name: string)
    requires Keeps(s, s') && s'.remaps == s.remaps && Proxied(s, name)
    ensures Proxied(s', name)
  {
  }

  /** `createProxyConfigurations(target, sourceSet)` on Loom: a source set other than main
      first gets its remap configurations, then the common selection is proxied. */
  function CreateProxyForSourceSet(s: LoomState, sourceSet: string, rs: seq<RemapConfiguration>)
    : (r: (LoomState, Outcome))
    requires Valid(s)
    ensures Valid(r.0) && Keeps(s, r.0)
    ensures sourceSet == MainSourceSet ==> r == ProxyEach(s, ProxiedConfigurations(sourceSet))
    ensures sourceSet != MainSourceSet && r.1.Pass? ==> r.0.remaps == s.remaps + rs
    ensures r.1.Pass? ==> forall n :: n in ProxiedConfigurations(sourceSet) ==> Proxied(r.0, n)
  {
    if sourceSet != MainSourceSet then
      var r1 := RegisterRemaps(s, rs);
      if r1.1.Fail? then r1 else ProxyEach(r1.0, ProxiedConfigurations(sourceSet))
    else ProxyEach(s, ProxiedConfigurations(sourceSet))
  }

  /** The `afterEvaluate` check: parchment cannot be enabled on Loom. */
  function CheckParchment(parchmentEnabled: bool): (o: Outcome)
    ensures o.Fail? <==> parchmentEnabled
    ensures o.Fail? ==> o.error == ParchmentUnsupported
  {
    if parchmentEnabled then Fail(ParchmentUnsupported) else Pass
  }

  /** Unlike ModDevGradle, Loom has no guard: a second request for the same configuration
      fails on the name the first one took, and changes nothing. */
  lemma RepeatRequestFails(s: LoomState, name: string)
    requires Valid(s) && name in s.container.configs && FindRemap(s.remaps, name).Some?
    requires ModProxyName(name) !in s.container.configs && RegularProxyName(name) !in s.container.configs
    ensures var r := CreateProxy(s, name);
            CreateProxy(r.0, name) == (r.0, Fail(AlreadyExists(ModProxyName(name))))
  {
    var r := CreateProxy(s, name);
    assert ModProxyName(name) in r.0.container.configs[FindRemap(s.remaps, name).value.name].extendsFrom;
  }

  /** A source set whose first selected configuration is missing fails on it, and nothing
      changes. */
  lemma {:induction false} MissingConfigurationFails(s: LoomState, names: seq<string>)
    requires Valid(s) && names != [] && names[0] !in s.container.configs
    ensures ProxyEach(s, names) == (s, Fail(UnknownConfiguration(names[0])))
  {
  }

  /** A source set whose first selected configuration has no remap configuration fails on it
      with NoRemapConfiguration, and nothing changes. */
  lemma {:induction false} UnremappedConfigurationFails(s: LoomState, names: seq<string>)
    requires Valid(s) && names != [] && names[0] in s.container.configs
    requires FindRemap(s.remaps, names[0]).None?
    ensures ProxyEach(s, names) == (s, Fail(NoRemapConfiguration(names[0])))
  {
  }

  /** A successful request adds the two proxies and two edges and touches no other
      configuration. */
  lemma {:induction false} ProxyTouchesOnlyItsEnds(s: LoomState, name: string)
    requires Valid(s) && name in s.container.configs && FindRemap(s.remaps, name).Some?
    requires ModProxyName(name) !in s.container.configs && RegularProxyName(name) !in s.container.configs
    ensures var r := CreateProxy(s, name);
            var remap := FindRemap(s.remaps, name).value.name;
            && r.0.container.configs.Keys == s.container.configs.Keys + {ModProxyName(name), RegularProxyName(name)}
            && r.0.container.configs[ModProxyName(name)] == Configuration({}, true)
            && r.0.container.configs[RegularProxyName(name)] == Configuration({}, true)
            && forall n :: n in s.container.configs && n != name && n != remap ==>
                 r.0.container.configs[n] == s.container.configs[n]
  {
    ProxyRolesDiffer(name);
  }
}
