/** The Loom plugin object: it works on the project's configuration container and on Loom's
    list of remap configurations. Every method does what the function of the same name in
    `LoomModel` describes. */
module Loom {
  import opened Results
  import opened Names
  import opened Gradle
  import opened LoomModel

  class LoomImpl {
    const configurations: ConfigurationContainer
    var remapConfigurations: seq<RemapConfiguration>

    function State(): LoomState
      reads this, configurations
    {
      LoomState(configurations.State(), remapConfigurations)
    }

    ghost predicate Valid()
      reads this, configurations
    {
      configurations.Valid() && LoomModel.Valid(State())
    }

    constructor (configurations: ConfigurationContainer)
      requires configurations.Valid()
      ensures Valid()
      ensures this.configurations == configurations
      ensures State() == LoomState(configurations.State(), [])
    {
      this.configurations := configurations;
      remapConfigurations := [];
    }

    /** `createProxyConfigurations(target, configuration)`. */
    method CreateProxyConfigurations(name: string) returns (o: Outcome)
      requires Valid() && name in configurations.configs
      modifies configurations
      ensures Valid()
      ensures (State(), o) == CreateProxy(old(State()), name)
    {
      var remap := FindRemap(remapConfigurations, name);
      if remap.None? {
        return Fail(NoRemapConfiguration(name));
      }
      var mod, reg := ModProxyName(name), RegularProxyName(name);
      ProxyRolesDiffer(name);
      o := configurations.Create(mod, true);
      if o.Fail? {
        return;
      }
      configurations.ExtendsFrom(remap.value.name, mod);
      o := configurations.Create(reg, true);
      if o.Fail? {
        return;
      }
      configurations.ExtendsFrom(name, reg);
    }

    /** `configureJiJConfiguration(target, configuration)`: `include` extends it at once. */
    method ConfigureJiJConfiguration(config: string) returns (o: Outcome)
      requires Valid() && config in configurations.configs
      modifies configurations
      ensures Valid()
      ensures (State(), o) == ConfigureJiJ(old(State()), config)
    {
      var i := configurations.GetByName(Include);
      if i.Err? {
        return Fail(i.error);
      }
      configurations.ExtendsFrom(i.value, config);
      o := Pass;
    }

    /** The `modstitchJiJ` step of `apply`. */
    method CreateJiJConfiguration() returns (o: Outcome)
      requires Valid()
      modifies configurations
      ensures Valid()
      ensures (State(), o) == CreateJiJ(old(State()))
    {
      o := configurations.Create(JiJ, false);
      if o.Fail? {
        return;
      }
      o := ConfigureJiJConfiguration(JiJ);
    }

    /** Loom's `createRemapConfigurations(sourceSet)` for the given remap configurations. */
    method CreateRemapConfigurations(rs: seq<RemapConfiguration>) returns (o: Outcome)
      requires Valid()
      modifies this, configurations
      ensures Valid()
      ensures (State(), o) == RegisterRemaps(old(State()), rs)
    {
      ghost var start := State();
      var i := 0;
      while i < |rs|
        invariant 0 <= i <= |rs|
        invariant Valid()
        invariant RegisterRemaps(start, rs) == RegisterRemaps(State(), rs[i..])
        decreases |rs| - i
      {
        assert rs[i..][0] == rs[i] && rs[i..][1..] == rs[i + 1..];
        o := configurations.Create(rs[i].name, true);
        if o.Fail? {
          return;
        }
        remapConfigurations := remapConfigurations + [rs[i]];
        i := i + 1;
      }
      assert rs[i..] == [];
      o := Pass;
    }

    /** The common `forEach`: each selected name is fetched and proxied. */
    method ProxyEach(names: seq<string>) returns (o: Outcome)
      requires Valid()
      modifies configurations
      ensures Valid()
      ensures (State(), o) == LoomModel.ProxyEach(old(State()), names)
      ensures o.Pass? ==> forall n :: n in names ==> Proxied(State(), n)
    {
      ghost var start := State();
      var i := 0;
      while i < |names|
        invariant 0 <= i <= |names|
        invariant Valid()
        invariant LoomModel.ProxyEach(start, names) == LoomModel.ProxyEach(State(), names[i..])
        decreases |names| - i
      {
        assert names[i..][0] == names[i] && names[i..][1..] == names[i + 1..];
        var c := configurations.GetByName(names[i]);
        if c.Err? {
          return Fail(c.error);
        }
        o := CreateProxyConfigurations(c.value);
        if o.Fail? {
          return;
        }
        i := i + 1;
      }
      assert names[i..] == [];
      o := Pass;
    }

    /** `createProxyConfigurations(target, sourceSet)`: remap configurations first for a
        source set other than main, then the common selection. */
    method CreateProxyConfigurationsForSourceSet(sourceSet: string, rs: seq<RemapConfiguration>)
      returns (o: Outcome)
      requires Valid()
      modifies this, configurations
      ensures Valid()
      ensures (State(), o) == CreateProxyForSourceSet(old(State()), sourceSet, rs)
      ensures o.Pass? ==> forall n :: n in ProxiedConfigurations(sourceSet) ==> Proxied(State(), n)
    {
      if sourceSet != MainSourceSet {
        o := CreateRemapConfigurations(rs);
        if o.Fail? {
          return;
        }
      }
      o := ProxyEach(ProxiedConfigurations(sourceSet));
    }
  }
}
