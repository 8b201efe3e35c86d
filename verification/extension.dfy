/** The `modstitch` project extension: it owns no state of its own and forwards proxy requests
    and `onEnable` to the platform plugin it was created with. */
module Extension {
  import opened Results
  import opened Names
  import opened Platforms
  import opened Gradle
  import MdgModel
  import LoomModel
  import opened Moddevgradle
  import opened Loom

  /** The plugin behind the extension. */
  datatype Backend = MdgBackend(mdg: ModdevgradleImpl) | LoomBackend(loom: LoomImpl)

  class ModstitchExtensionImpl {
    const plugin: Backend

    constructor (plugin: Backend)
      ensures this.plugin == plugin
    {
      this.plugin := plugin;
    }

    /** The objects a forwarded call may change. */
    function Repr(): set<object>
    {
      match plugin
      case MdgBackend(m) => {m, m.configurations}
      case LoomBackend(l) => {l, l.configurations}
    }

    ghost predicate Valid()
      reads Repr()
    {
      match plugin
      case MdgBackend(m) => m.Valid()
      case LoomBackend(l) => l.Valid()
    }

    /** `platform`: the plugin's platform. */
    function Platform(): (p: Platform)
      ensures p == Loom <==> plugin.LoomBackend?
      ensures plugin.MdgBackend? ==> p == PlatformOf(plugin.mdg.mdgType)
    {
      match plugin
      case MdgBackend(m) => PlatformOf(m.mdgType)
      case LoomBackend(_) => Loom
    }

    /** `platform` and the `is*` flags, all read off the plugin's platform. */
    function PlatformFlags(): (f: Flags)
      ensures f.isLoom <==> plugin.LoomBackend?
      ensures f.isModDevGradle <==> plugin.MdgBackend?
      ensures f.isModDevGradleRegular <==> plugin.MdgBackend? && plugin.mdg.mdgType == Regular
      ensures f.isModDevGradleLegacy <==> plugin.MdgBackend? && plugin.mdg.mdgType == Legacy
    {
      ExtensionFlags(Platform())
    }

    /** `loom(action)` and `moddevgradle(action)`: the platform extension the action runs on,
        or None when it does not run. */
    function PlatformExtensionFor(wanted: ExtensionType): (r: Option<PlatformExtension>)
      ensures r.Some? <==> (wanted == BaseLoomExtension <==> plugin.LoomBackend?)
    {
      PlatformActionsRunOnTheirPlatform(Platform());
      Dispatch(PlatformExtensionOf(Platform()), wanted)
    }

    /** `createProxyConfigurations(configuration)`: always immediate, never deferred. */
    method CreateProxyConfigurations(name: string) returns (o: Outcome)
      requires Valid()
      requires plugin.MdgBackend? ==> name in plugin.mdg.configurations.configs
      requires plugin.LoomBackend? ==> name in plugin.loom.configurations.configs
      modifies Repr()
      ensures Valid()
      ensures plugin.MdgBackend? ==>
                (plugin.mdg.State(), o)
                == MdgModel.CreateProxy(plugin.mdg.mdgType, old(plugin.mdg.State()), MdgModel.Materialized(name), false)
      ensures plugin.LoomBackend? ==>
                (plugin.loom.State(), o) == LoomModel.CreateProxy(old(plugin.loom.State()), name)
    {
      match plugin
      case MdgBackend(m) =>
        o := m.CreateProxyConfigurations(MdgModel.Materialized(name), false);
      case LoomBackend(l) =>
        o := l.CreateProxyConfigurations(name);
    }

    /** `createProxyConfigurations(sourceSet)`: the plugin's source-set overload. On Loom,
        `loomRemaps` are the remap configurations Loom makes for a source set other than main. */
    method CreateProxyConfigurationsForSourceSet(sourceSet: string, loomRemaps: seq<LoomModel.RemapConfiguration>)
      returns (o: Outcome)
      requires Valid()
      modifies Repr()
      ensures Valid()
      ensures plugin.MdgBackend? ==>
                (plugin.mdg.State(), o)
                == MdgModel.CreateProxyForSourceSet(plugin.mdg.mdgType, old(plugin.mdg.State()), sourceSet)
      ensures plugin.LoomBackend? ==>
                (plugin.loom.State(), o)
                == LoomModel.CreateProxyForSourceSet(old(plugin.loom.State()), sourceSet, loomRemaps)
    {
      match plugin
      case MdgBackend(m) =>
        o := m.CreateProxyConfigurationsForSourceSet(sourceSet);
      case LoomBackend(l) =>
        o := l.CreateProxyConfigurationsForSourceSet(sourceSet, loomRemaps);
    }

    /** `onEnable(action)`: the build-script action goes to the plugin's `onEnable` unchanged. */
    method OnEnable(action: nat) returns (o: Outcome)
      requires Valid() && plugin.MdgBackend?
      modifies Repr()
      ensures Valid()
      ensures (plugin.mdg.State(), o)
              == MdgModel.OnEnable(plugin.mdg.mdgType, old(plugin.mdg.State()), MdgModel.Script(action))
    {
      o := plugin.mdg.OnEnable(MdgModel.Script(action));
    }
  }

  /** The source-set shorthand on the main source set proxies the five configurations its
      documentation lists and, beyond them, `localRuntime`; other source sets get three. */
  lemma ShorthandCoverage(sourceSet: string)
    ensures (set n | n in ProxiedConfigurations(MainSourceSet))
            == {"compileOnly", "implementation", "runtimeOnly", "compileOnlyApi", "api"} + {LocalRuntime}
    ensures sourceSet != MainSourceSet ==> |ProxiedConfigurations(sourceSet)| == 3
  {
    MainSelection();
    if sourceSet != MainSourceSet {
      OtherSelection(sourceSet);
    }
  }
}
