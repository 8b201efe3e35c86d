/** The ModDevGradle plugin object: it owns the project's configuration container and the
    state it updates in place (the applied plugin ids, the actions waiting for the enabled
    marker, the log of actions run, and the lateinit remap configuration). Every method does
    what the function of the same name in `MdgModel` describes, so the properties proved
    there hold of it. */
module Moddevgradle {
  import opened Results
  import opened Names
  import opened Platforms
  import opened Gradle
  import opened MdgModel

  class ModdevgradleImpl {
    const mdgType: MDGType
    const configurations: ConfigurationContainer
    var plugins: set<string>
    var pending: seq<Action>
    var ran: seq<Action>
    var remapConfiguration: Option<string>

    function State(): MdgState
      reads this, configurations
    {
      MdgState(configurations.State(), plugins, pending, ran, remapConfiguration)
    }

    ghost predicate Valid()
      reads this, configurations
    {
      configurations.Valid() && MdgModel.Valid(State())
    }

    /** A plugin for a project whose container is `configurations`; nothing applied yet. */
    constructor (t: MDGType, configurations: ConfigurationContainer)
      requires configurations.Valid()
      ensures Valid()
      ensures mdgType == t && this.configurations == configurations
      ensures State() == MdgState(configurations.State(), {}, [], [], None)
    {
      mdgType := t;
      this.configurations := configurations;
      plugins := {};
      pending := [];
      ran := [];
      remapConfiguration := None;
    }

    /** `backend.extendsFrom(proxy)` after `get` on the reference. */
    method ExtendBackendNow(ref: Ref, proxy: string) returns (o: Outcome)
      requires Valid() && proxy in configurations.configs
      modifies configurations
      ensures Valid()
      ensures (State(), o) == MdgModel.ExtendBackendNow(old(State()), ref, proxy)
    {
      var b := configurations.GetByName(ref.name);
      if b.Err? {
        return Fail(b.error);
      }
      configurations.ExtendsFrom(b.value, proxy);
      o := Pass;
    }

    /** Runs a leaf action, logging it first. */
    method RunLeaf(a: Action) returns (o: Outcome)
      requires Valid() && Leaf(a) && Targets(a, configurations.State())
      modifies this, configurations
      ensures Valid()
      ensures (State(), o) == MdgModel.RunLeaf(mdgType, old(State()), a)
    {
      ran := ran + [a];
      match a
      case ExtendBackend(ref, proxy) =>
        o := ExtendBackendNow(ref, proxy);
      case ExtendRemap(proxy) =>
        if mdgType == Regular {
          o := Pass;
        } else if remapConfiguration.None? {
          o := Fail(Uninitialized("remapConfiguration"));
        } else {
          configurations.ExtendsFrom(remapConfiguration.value, proxy);
          o := Pass;
        }
      case ExtendNamed(child, parent) =>
        var c := configurations.GetByName(child);
        if c.Err? {
          o := Fail(c.error);
        } else {
          configurations.ExtendsFrom(child, parent);
          o := Pass;
        }
      case Script(_) =>
        o := Pass;
    }

    /** `onEnable` for a leaf action. */
    method OnEnableLeaf(a: Action) returns (o: Outcome)
      requires Valid() && Leaf(a) && Targets(a, configurations.State())
      modifies this, configurations
      ensures Valid()
      ensures (State(), o) == MdgModel.OnEnableLeaf(mdgType, old(State()), a)
    {
      if EnabledMarker in plugins {
        o := RunLeaf(a);
      } else {
        pending := pending + [a];
        o := Pass;
      }
    }

    /** The local `deferred` of `createProxyConfigurations`. */
    method Wire(ref: Ref, defer: bool, proxy: string) returns (o: Outcome)
      requires Valid() && proxy in configurations.configs
      modifies this, configurations
      ensures Valid()
      ensures (State(), o) == MdgModel.Wire(mdgType, old(State()), ref, defer, proxy)
    {
      if !defer {
        o := ExtendBackendNow(ref, proxy);
      } else {
        o := OnEnableLeaf(ExtendBackend(ref, proxy));
      }
    }

    /** One `create(name) proxy@{ ... }` block. */
    method CreateWiredProxy(ref: Ref, defer: bool, name: string, a: Action) returns (o: Outcome)
      requires Valid()
      requires a == ExtendRemap(name) || a == ExtendNamed(AdditionalRuntimeClasspath, name)
      modifies this, configurations
      ensures Valid()
      ensures (State(), o) == MdgModel.CreateWiredProxy(mdgType, old(State()), ref, defer, name, a)
    {
      o := configurations.Create(name, true);
      if o.Fail? {
        return;
      }
      o := Wire(ref, defer, name);
      if o.Fail? {
        return;
      }
      o := OnEnableLeaf(a);
    }

    /** `createProxyConfigurations(target, configuration, defer)`. */
    method CreateProxyConfigurations(ref: Ref, defer: bool) returns (o: Outcome)
      requires Valid()
      modifies this, configurations
      ensures Valid()
      ensures (State(), o) == CreateProxy(mdgType, old(State()), ref, defer)
    {
      var mod, reg := ModProxyName(ref.name), RegularProxyName(ref.name);
      ProxyRolesDiffer(ref.name);
      if mod in configurations.configs {
        return Pass;
      }
      o := CreateWiredProxy(ref, defer, mod, ExtendRemap(mod));
      if o.Fail? {
        return;
      }
      o := CreateWiredProxy(ref, defer, reg, ExtendNamed(AdditionalRuntimeClasspath, reg));
    }

    /** Runs one action, logging it first. */
    method Run(a: Action) returns (o: Outcome)
      requires Valid() && Targets(a, configurations.State())
      modifies this, configurations
      ensures Valid()
      ensures (State(), o) == MdgModel.Run(mdgType, old(State()), a)
    {
      if Leaf(a) {
        o := RunLeaf(a);
      } else {
        ran := ran + [a];
        o := CreateProxyConfigurations(Deferred(LocalRuntime), true);
      }
    }

    /** `onEnable(target, action)`: `withPlugin(marker)`. */
    method OnEnable(a: Action) returns (o: Outcome)
      requires Valid() && Targets(a, configurations.State())
      modifies this, configurations
      ensures Valid()
      ensures (State(), o) == MdgModel.OnEnable(mdgType, old(State()), a)
    {
      if EnabledMarker in plugins {
        o := Run(a);
      } else {
        pending := pending + [a];
        o := Pass;
      }
    }

    /** `pluginManager.apply(id)`; applying the marker empties the queue and runs what was
        waiting in order, stopping at the first failure. */
    method ApplyPlugin(id: string) returns (o: Outcome)
      requires Valid()
      modifies this, configurations
      ensures Valid()
      ensures (State(), o) == MdgModel.ApplyPlugin(mdgType, old(State()), id)
    {
      if id in plugins {
        return Pass;
      }
      plugins := plugins + {id};
      if id != EnabledMarker {
        return Pass;
      }
      var q := pending;
      pending := [];
      ghost var start := State();
      o := Pass;
      var i := 0;
      while i < |q| && o.Pass?
        invariant 0 <= i <= |q|
        invariant Valid() && Enabled(State())
        invariant o.Pass? ==> AllTarget(q[i..], configurations.State())
        invariant o.Pass? ==> FireAll(mdgType, start, q) == FireAll(mdgType, State(), q[i..])
        invariant o.Fail? ==> FireAll(mdgType, start, q) == (State(), o)
        decreases |q| - i
      {
        assert q[i..][0] == q[i] && q[i..][1..] == q[i + 1..];
        ghost var before := State();
        o := Run(q[i]);
        TargetsKept(q[i..], before, State());
        i := i + 1;
      }
    }

    /** `enable(target)`: nothing once the marker is applied; on Legacy it creates
        `modstitchMdgRemap` and keeps it as the remap configuration. */
    method Enable() returns (o: Outcome)
      requires Valid()
      modifies this, configurations
      ensures Valid()
      ensures (State(), o) == MdgModel.Enable(mdgType, old(State()))
    {
      if EnabledMarker in plugins || mdgType == Regular {
        return Pass;
      }
      o := configurations.Create(MdgRemap, true);
      if o.Fail? {
        return;
      }
      remapConfiguration := Some(MdgRemap);
    }

    /** The `forEach` over the selected names: each is fetched with `getByName` and proxied at
        once; the first failure stops the rest. */
    method ProxyEach(names: seq<string>) returns (o: Outcome)
      requires Valid()
      modifies this, configurations
      ensures Valid()
      ensures (State(), o) == MdgModel.ProxyEach(mdgType, old(State()), names)
      ensures o.Pass? && ProxiesApart(names) && ReadyToProxy(old(State()).container, names) ==>
                forall n :: n in names ==> Proxied(State().container, n)
    {
      ghost var start := State();
      o := Pass;
      var i := 0;
      while i < |names|
        invariant 0 <= i <= |names|
        invariant Valid() && o == Pass
        invariant MdgModel.ProxyEach(mdgType, start, names) == MdgModel.ProxyEach(mdgType, State(), names[i..])
        decreases |names| - i
      {
        assert names[i..][0] == names[i] && names[i..][1..] == names[i + 1..];
        var c := configurations.GetByName(names[i]);
        if c.Err? {
          return Fail(c.error);
        }
        o := CreateProxyConfigurations(Materialized(c.value), false);
        if o.Fail? {
          return;
        }
        i := i + 1;
      }
      assert names[i..] == [];
    }

    /** `createProxyConfigurations(target, sourceSet)`: the common selection, then for the
        main source set a deferred proxy of `localRuntime` once enabled. */
    method CreateProxyConfigurationsForSourceSet(sourceSet: string) returns (o: Outcome)
      requires Valid()
      modifies this, configurations
      ensures Valid()
      ensures (State(), o) == CreateProxyForSourceSet(mdgType, old(State()), sourceSet)
      ensures o.Pass? && ReadyToProxy(old(State()).container, ProxiedConfigurations(sourceSet)) ==>
                forall n :: n in ProxiedConfigurations(sourceSet) ==> Proxied(State().container, n)
    {
      o := ProxyEach(ProxiedConfigurations(sourceSet));
      if o.Pass? && sourceSet == MainSourceSet {
        o := OnEnable(ProxyLocalRuntime);
      }
    }

    /** `configureJiJConfiguration(target, configuration)`. */
    method ConfigureJiJConfiguration(config: string) returns (o: Outcome)
      requires Valid() && config in configurations.configs
      modifies this, configurations
      ensures Valid()
      ensures (State(), o) == ConfigureJiJ(mdgType, old(State()), config)
    {
      o := OnEnableLeaf(ExtendNamed(JarJar, config));
    }

    /** The `modstitchJiJ` step of `apply`. */
    method CreateJiJConfiguration() returns (o: Outcome)
      requires Valid()
      modifies this, configurations
      ensures Valid()
      ensures (State(), o) == CreateJiJ(mdgType, old(State()))
    {
      o := configurations.Create(JiJ, false);
      if o.Fail? {
        return;
      }
      o := ConfigureJiJConfiguration(JiJ);
    }
  }
}
