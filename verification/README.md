# ModStitch configuration wiring in Dafny

ModStitch is a Gradle plugin that lets one build script target several Minecraft mod
toolchains: Fabric Loom, NeoForge ModDevGradle and ModDevGradle Legacy. This project models
the part of it that has logic of its own, against an abstract build state. That part is
mostly configuration bookkeeping:

- **Proxy configurations.** For a backend configuration such as `implementation`,
  ModStitch creates a *mod proxy* (`modstitchModImplementation`) and a *regular proxy*
  (`modstitchImplementation`), and makes the backend extend both.
  - On ModDevGradle, the wiring can wait for the *enabled marker*, a plugin applied once the
    platform is set up. The regular proxy is then also fed to `additionalRuntimeClasspath`.
    On Legacy, the mod proxy is also fed to the remap configuration `modstitchMdgRemap`.
  - On Loom, the mod proxy feeds Loom's remap configuration for the backend, and everything
    is wired at once.
- **The enablement gate** (ModDevGradle). An `onEnable` action runs at once when the marker
  is applied. Otherwise it waits in a first-in first-out queue, which applying the marker runs.
- **Selections and tables.** These are the configurations proxied per source set, the
  repositories per platform, the template property map, the manifest exclusion filter, the
  mixin entries per platform, and the extension's platform flags and dispatch.

Modules:

- `Gradle`: the configuration container, as a value (`Container`) and as the object
  the plugins update in place (`ConfigurationContainer`). An edge goes from a
  configuration to the configurations it `extendsFrom`.
- `MdgModel`: the ModDevGradle plugin as functions on its state. The state holds the
  container, the applied plugin ids, the queue, a log of the actions run, and the Legacy
  remap configuration.
  - The closures the plugin registers are `Action` values.
  - A thrown exception is a `Fail` outcome carrying the state reached when it was thrown.
- `MdgProperties`: what that wiring guarantees, as lemmas.
- `Moddevgradle`: the plugin object.
  - Its methods update the container and its own fields.
  - Each method is proved to do what the `MdgModel` function of the same name does.
  - Applying the marker is a loop over the queue.
- `LoomModel` / `Loom`: the same pair for Loom.
- `Extension`: the `modstitch` extension. It forwards requests to the plugin it wraps.
- `Names`: proxy names and the per-source-set selection.
- `Platforms`, `Repositories`, `Templates`, `Mixins`: the pure tables.

**Where the documentation and the code disagree, the model follows the code.**
The shorthand `createProxyConfigurations(sourceSet)` is documented to cover five
configurations. The code is different in two ways:

- on the main source set it proxies those five and also `localRuntime`, with `api` first;
- on any other source set it proxies only `implementation`, `compileOnly` and `runtimeOnly`.

`Extension.ShorthandCoverage`, `Names.MainSelection` and `Names.OtherSelection` state
this.

Paths below are relative to the repository root.

## Model

| member | source | states |
|---|---|---|
| Gradle.CreateIn | src/main/kotlin/dev/isxander/modstitch/base/moddevgradle/BaseModdevgradleImpl.kt:134 | `create(name)` on a free name adds one configuration without edges, last in creation order, and changes no other configuration; on a taken name it fails with AlreadyExists and changes nothing |
| Gradle.ExtendIn | src/main/kotlin/dev/isxander/modstitch/base/moddevgradle/BaseModdevgradleImpl.kt:136 | `extendsFrom` adds exactly one edge to the child; names, creation order and every other configuration are unchanged |
| Gradle.Lookup | src/main/kotlin/dev/isxander/modstitch/base/BaseCommonImpl.kt:201 | `getByName` succeeds exactly when the name is registered and fails with UnknownConfiguration(name) otherwise |
| Gradle.OperationsKeepListed | src/main/kotlin/dev/isxander/modstitch/base/moddevgradle/BaseModdevgradleImpl.kt:134-155 | creating and extending keep the creation order free of repeats and equal to the set of registered names |
| Gradle.ConfigurationContainer.Create | src/main/kotlin/dev/isxander/modstitch/base/moddevgradle/BaseModdevgradleImpl.kt:134 | the container object changes exactly as `CreateIn` says and keeps its invariant |
| Gradle.ConfigurationContainer.ExtendsFrom | src/main/kotlin/dev/isxander/modstitch/base/moddevgradle/BaseModdevgradleImpl.kt:136 | the container object changes exactly as `ExtendIn` says and keeps its invariant |
| Gradle.ConfigurationContainer.GetByName | src/main/kotlin/dev/isxander/modstitch/base/BaseCommonImpl.kt:201 | the lookup on the container object agrees with `Lookup` |
| Names.AddCamelCasePrefix | src/main/kotlin/dev/isxander/modstitch/base/moddevgradle/BaseModdevgradleImpl.kt:121-122 | the prefix, then the name with its first letter upper-cased; an empty prefix leaves the name as it is |
| Names.ProxyNameExamples | src/main/kotlin/dev/isxander/modstitch/base/extensions/Modstitch.kt:73-76 | proxying `compile` names the proxies `modstitchCompile` and `modstitchModCompile` |
| Names.ProxyRolesDiffer | src/main/kotlin/dev/isxander/modstitch/base/moddevgradle/BaseModdevgradleImpl.kt:121-122 | the mod proxy name and the regular proxy name of a backend differ from each other and from the backend |
| Names.CamelCaseJoinInjective | src/main/kotlin/dev/isxander/modstitch/base/moddevgradle/BaseModdevgradleImpl.kt:121-122 | for lower-camel names, the same prefix gives the same result only for the same name |
| Names.ProxyNamesInjective | src/main/kotlin/dev/isxander/modstitch/base/moddevgradle/BaseModdevgradleImpl.kt:121-122 | two lower-camel backends get the same mod proxy name, or the same regular proxy name, only when they are the same backend |
| Names.CrossRoleClash | src/main/kotlin/dev/isxander/modstitch/base/moddevgradle/BaseModdevgradleImpl.kt:121-127 | the regular proxy of `modX` has the name of the mod proxy of `x`, so the existence guard cannot tell the two apart |
| Names.ProxyNamesDiffer | src/main/kotlin/dev/isxander/modstitch/base/moddevgradle/BaseModdevgradleImpl.kt:121-122 | names of different lengths, or differing past their first character, get different proxy names in each role |
| Names.CrossRoleNeedsShape | src/main/kotlin/dev/isxander/modstitch/base/moddevgradle/BaseModdevgradleImpl.kt:121-122 | a regular proxy can carry a mod proxy's name only when its configuration is three characters longer and ends in the same character |
| Names.MainOnly | src/main/kotlin/dev/isxander/modstitch/base/BaseCommonImpl.kt:190-191 | a name is kept exactly on the main source set |
| Names.ListOfNotNull | src/main/kotlin/dev/isxander/modstitch/base/BaseCommonImpl.kt:193-199 | a one-entry list gives its value when present and nothing when absent; with none absent, the list is unchanged in length and content |
| Names.ListOfNotNullAppend | src/main/kotlin/dev/isxander/modstitch/base/BaseCommonImpl.kt:193-199 | the result for a joined list is the result for its front followed by the result for its back, so with the one-entry case the present values keep their order |
| Names.ListOfNotNullMembers | src/main/kotlin/dev/isxander/modstitch/base/BaseCommonImpl.kt:193-199 | a name is in the result exactly when it was present in the input |
| Names.MainSelection | src/main/kotlin/dev/isxander/modstitch/base/BaseCommonImpl.kt:190-199 | `ProxiedConfigurations` on the main source set proxies api, implementation, compileOnly, runtimeOnly, compileOnlyApi and localRuntime, in that order |
| Names.OtherSelection | src/main/kotlin/dev/isxander/modstitch/base/BaseCommonImpl.kt:190-199 | `ProxiedConfigurations` on any other source set proxies only its implementation, compileOnly and runtimeOnly configurations, named by `ConfigurationName` with the source set as prefix, in that order |
| Names.MainProxiesApart | src/main/kotlin/dev/isxander/modstitch/base/BaseCommonImpl.kt:190-199 | the six configurations of the main source set never share a proxy name, in either role |
| Names.OtherProxiesApart | src/main/kotlin/dev/isxander/modstitch/base/BaseCommonImpl.kt:190-199 | the three configurations of any other source set never share a proxy name, whatever the source set is called |
| Names.SelectionProxiesApart | src/main/kotlin/dev/isxander/modstitch/base/BaseCommonImpl.kt:190-199 | the configurations any source set proxies never share a proxy name, so proxying one cannot take a name another needs |
| Platforms.PlatformOf | src/main/kotlin/dev/isxander/modstitch/base/moddevgradle/BaseModdevgradleImpl.kt:30 | a ModDevGradle type is never Loom; Regular is ModDevGradle and Legacy is ModDevGradle Legacy |
| Platforms.FlagsPartition | src/main/kotlin/dev/isxander/modstitch/base/extensions/Modstitch.kt:100-107 | a platform is Loom or ModDevGradle, never both, and a ModDevGradle platform is exactly one of Regular and Legacy |
| Platforms.ExtensionFlags | src/main/kotlin/dev/isxander/modstitch/base/extensions/Modstitch.kt:153-162 | `platform` and the four `is*` flags are read off the plugin platform, each true on exactly its platforms |
| Platforms.ManifestsDistinct | src/main/kotlin/dev/isxander/modstitch/base/extensions/Modstitch.kt:57-64 | `ModManifest` gives each platform its own manifest, and it is one of the known manifests |
| Platforms.MdgManifest | src/main/kotlin/dev/isxander/modstitch/base/moddevgradle/BaseModdevgradleImpl.kt:83-86 | a ModDevGradle type sets the manifest of its platform, never the Loom one |
| Platforms.PlatformExtensionOf | src/main/kotlin/dev/isxander/modstitch/base/moddevgradle/BaseModdevgradleImpl.kt:33-38 | the extension a plugin registers is the Loom one exactly on Loom, and otherwise carries the plugin's ModDevGradle type |
| Platforms.Dispatch | src/main/kotlin/dev/isxander/modstitch/base/extensions/Modstitch.kt:167-172 | the action receives the extension exactly when it is of the requested type |
| Platforms.PlatformActionsRunOnTheirPlatform | src/main/kotlin/dev/isxander/modstitch/base/extensions/Modstitch.kt:110-119 | `loom(action)` runs only on Loom, `moddevgradle(action)` only on the two ModDevGradle platforms, and never both |
| Repositories.RepositoriesFor | src/main/kotlin/dev/isxander/modstitch/base/loom/BaseLoomImpl.kt:53-56 | every platform starts with the common four repositories; Loom adds FabricMC as the fifth and last |
| Repositories.FilterMembers | src/main/kotlin/dev/isxander/modstitch/base/BaseCommonImpl.kt:93-108 | the exclusive filter keeps exactly the repositories tied to the group, the open filter exactly those tied to none |
| Repositories.Candidates | src/main/kotlin/dev/isxander/modstitch/base/BaseCommonImpl.kt:93-108 | a repository consulted for a group is registered and is either open or tied to that group |
| Repositories.CandidatesPerGroup | src/main/kotlin/dev/isxander/modstitch/base/BaseCommonImpl.kt:90-108 | `maven.modrinth` goes only to Modrinth, `curse.maven` only to Cursemaven, and any other group to Maven Central and ParchmentMC (then FabricMC on Loom) |
| Repositories.CommonFilters | src/main/kotlin/dev/isxander/modstitch/base/BaseCommonImpl.kt:90-106 | in the common list Modrinth and Cursemaven are the exclusive repositories and Maven Central and ParchmentMC the open ones |
| Repositories.PlatformFilters | src/main/kotlin/dev/isxander/modstitch/base/BaseCommonImpl.kt:90-108 | on each platform the exclusive repositories are Modrinth and Cursemaven for their groups, and the open ones end with FabricMC on Loom |
| Templates.BaseProperties | src/main/kotlin/dev/isxander/modstitch/base/BaseCommonImpl.kt:143-154 | the base property map has exactly the ten keys, each bound to its metadata value: `minecraft_version`, `mod_version`, `mod_name`, `mod_author`, `mod_license`, `mod_description`, `mod_id`, `mod_group`, `mod_credits` and `mod_mixins`, the last holding the serialized mixin configs |
| Templates.BaseKeyCount | src/main/kotlin/dev/isxander/modstitch/base/BaseCommonImpl.kt:143-154 | the ten base keys are distinct |
| Templates.AllProperties | src/main/kotlin/dev/isxander/modstitch/base/BaseCommonImpl.kt:156-159 | the merged map has the base keys plus the replacement keys; a replacement value wins over a base value |
| Templates.ReplacementOverridesBase | src/main/kotlin/dev/isxander/modstitch/base/BaseCommonImpl.kt:156-159 | without replacements `mod_id` is the metadata mod id; a replacement named `mod_id` overrides it and adds no key |
| Templates.ManifestsToExclude | src/main/kotlin/dev/isxander/modstitch/base/BaseCommonImpl.kt:175-177 | the manifests to exclude are the known ones other than the current one, or all of them when there is none |
| Templates.ManifestFile | src/main/kotlin/dev/isxander/modstitch/base/extensions/Modstitch.kt:57-64 | each platform's manifest file sits in the template tree at the manifest's path |
| Templates.AsWrittenKeepsModDevGradleManifests | src/main/kotlin/dev/isxander/modstitch/base/BaseCommonImpl.kt:173-180 | as written (`ExcludedAsWritten`), the ModDevGradle manifests are never excluded, even on Loom where they should be |
| Templates.ExcludesExactlyOtherManifests | src/main/kotlin/dev/isxander/modstitch/base/BaseCommonImpl.kt:173-180 | as intended (`Excluded`), on platform p the manifest of platform q is excluded exactly when p and q differ |
| Templates.ExcludedOnlyManifests | src/main/kotlin/dev/isxander/modstitch/base/BaseCommonImpl.kt:173-180 | as intended (`Excluded`), with no current manifest every manifest is excluded, and a file that is not a manifest is always kept |
| Mixins.LoomEnvironmentInjective | src/main/kotlin/dev/isxander/modstitch/base/loom/BaseLoomImpl.kt:102-106 | Both, Client and Server map to `*`, `client` and `server`, and different sides to different strings |
| Mixins.LoomMixinEntries | src/main/kotlin/dev/isxander/modstitch/base/loom/BaseLoomImpl.kt:100-107 | one entry per config, in order, with its config and environment; the first config whose config or side is unset fails the whole list |
| Mixins.MdgMixinEntries | src/main/kotlin/dev/isxander/modstitch/base/moddevgradle/BaseModdevgradleImpl.kt:198-206 | one entry per config, in order, holding only the config; a side other than Both (unset counts as Both) is reported as ignored; the first unset config fails the list |
| Mixins.UnsetSideDiffers | src/main/kotlin/dev/isxander/modstitch/base/moddevgradle/BaseModdevgradleImpl.kt:200-205 | a config without a side is accepted on ModDevGradle but fails on Loom |
| MdgModel.ExtendBackendNow | src/main/kotlin/dev/isxander/modstitch/base/moddevgradle/BaseModdevgradleImpl.kt:129-130 | `get` on the reference (`Resolve`) then `extendsFrom`: adds the backend-to-proxy edge, or fails with UnknownConfiguration and changes nothing |
| MdgModel.RunLeaf | src/main/kotlin/dev/isxander/modstitch/base/moddevgradle/BaseModdevgradleImpl.kt:134-154 | a closure is logged first; it creates no configuration, queues nothing and removes no edge |
| MdgModel.OnEnableLeaf | src/main/kotlin/dev/isxander/modstitch/base/moddevgradle/BaseModdevgradleImpl.kt:220-226 | before the marker the action is appended to the queue and nothing else changes; after it, the action runs at once |
| MdgModel.Wire | src/main/kotlin/dev/isxander/modstitch/base/moddevgradle/BaseModdevgradleImpl.kt:129-132 | the local `deferred`: wiring never creates a configuration or removes an edge |
| MdgModel.CreateWiredProxy | src/main/kotlin/dev/isxander/modstitch/base/moddevgradle/BaseModdevgradleImpl.kt:134-143 | a taken name fails and changes nothing; otherwise the proxy is created, last in creation order, before its block runs |
| MdgModel.CreateProxies | src/main/kotlin/dev/isxander/modstitch/base/moddevgradle/BaseModdevgradleImpl.kt:124-155 | nothing happens when the mod proxy exists; otherwise the mod proxy is created first and, on success, the regular proxy right after it; a taken regular name fails |
| MdgModel.CreateProxy | src/main/kotlin/dev/isxander/modstitch/base/moddevgradle/BaseModdevgradleImpl.kt:120-156 | afterwards the mod proxy exists; when it existed before the call changes nothing; on success exactly the two proxies are appended, mod first |
| MdgModel.Run | src/main/kotlin/dev/isxander/modstitch/base/moddevgradle/BaseModdevgradleImpl.kt:222-226 | an action is logged before anything else it does, and running never removes a configuration or an edge |
| MdgModel.OnEnable | src/main/kotlin/dev/isxander/modstitch/base/moddevgradle/BaseModdevgradleImpl.kt:222-226 | before the marker the action is queued and nothing else changes; after it, it runs at once |
| MdgModel.FireAll | src/main/kotlin/dev/isxander/modstitch/base/moddevgradle/BaseModdevgradleImpl.kt:223-225 | running the waiting actions keeps the state valid and only adds configurations, edges and log entries |
| MdgModel.ApplyPlugin | src/main/kotlin/dev/isxander/modstitch/base/moddevgradle/BaseModdevgradleImpl.kt:222-226 | applying a plugin twice does nothing; a plugin other than the marker runs nothing; the marker empties the queue and runs it |
| MdgModel.Enable | src/main/kotlin/dev/isxander/modstitch/base/moddevgradle/BaseModdevgradleImpl.kt:90-101 | nothing once the marker is applied or on Regular; on Legacy it creates `modstitchMdgRemap` and records it, or, when the name is taken, fails with AlreadyExists(`modstitchMdgRemap`) and changes nothing |
| MdgModel.ProxyEach | src/main/kotlin/dev/isxander/modstitch/base/BaseCommonImpl.kt:200-202 | on success every selected configuration exists and has its mod proxy; when the selection's proxy names are apart and each configuration is either not proxied yet or already proxied, each one extends both of its proxies |
| MdgModel.ImmediateBlockWires | src/main/kotlin/dev/isxander/modstitch/base/moddevgradle/BaseModdevgradleImpl.kt:129-143 | an immediate proxy block adds exactly its proxy, and on success the backend extends it |
| MdgModel.ImmediateRequestWires | src/main/kotlin/dev/isxander/modstitch/base/moddevgradle/BaseModdevgradleImpl.kt:124-155 | an immediate request whose mod proxy is new adds exactly the two proxies, and on success the backend extends both |
| MdgModel.RequestProxies | src/main/kotlin/dev/isxander/modstitch/base/moddevgradle/BaseModdevgradleImpl.kt:124-155 | after an immediate request for a configuration ready to be proxied, it extends both proxies, and no name but its proxies was added |
| MdgModel.ProxyStep | src/main/kotlin/dev/isxander/modstitch/base/BaseCommonImpl.kt:200-202 | one step of the `forEach` leaves its configuration proxied and the rest of the selection ready |
| MdgModel.RestStaysReady | src/main/kotlin/dev/isxander/modstitch/base/BaseCommonImpl.kt:200-202 | proxying one configuration cannot take a proxy name another configuration of the selection needs |
| MdgModel.CreateProxyForSourceSet | src/main/kotlin/dev/isxander/modstitch/base/moddevgradle/BaseModdevgradleImpl.kt:166-174 | on success every selected configuration of the source set has its mod proxy; when each is either not proxied yet or already proxied, each extends both of its proxies |
| MdgModel.ConfigureJiJ | src/main/kotlin/dev/isxander/modstitch/base/moddevgradle/BaseModdevgradleImpl.kt:158-164 | the `jarJar` wiring creates no configuration |
| MdgModel.CreateJiJ | src/main/kotlin/dev/isxander/modstitch/base/BaseCommonImpl.kt:79-83 | `modstitchJiJ` is created non-transitive, or the call fails with AlreadyExists and changes nothing |
| MdgProperties.SecondProxyRequestIsNoOp | src/main/kotlin/dev/isxander/modstitch/base/moddevgradle/BaseModdevgradleImpl.kt:124-127 | a second request for the same backend, with any `defer`, changes nothing |
| MdgProperties.QueuedProxy | src/main/kotlin/dev/isxander/modstitch/base/moddevgradle/BaseModdevgradleImpl.kt:134-143 | a deferred block before the marker creates the proxy and queues its two actions, in order |
| MdgProperties.WiredProxy | src/main/kotlin/dev/isxander/modstitch/base/moddevgradle/BaseModdevgradleImpl.kt:134-143 | an immediate block before the marker creates the proxy, adds the backend edge at once and queues only the enable-time action |
| MdgProperties.DeferredProxies | src/main/kotlin/dev/isxander/modstitch/base/moddevgradle/BaseModdevgradleImpl.kt:129-155 | a deferred request before the marker creates the two proxies without edges and queues four actions; the backend is not looked up |
| MdgProperties.ImmediateProxies | src/main/kotlin/dev/isxander/modstitch/base/moddevgradle/BaseModdevgradleImpl.kt:129-155 | an immediate request before the marker makes the backend extend both proxies and queues the remap and classpath wiring |
| MdgProperties.ImmediateProxiesOfMissingBackend | src/main/kotlin/dev/isxander/modstitch/base/moddevgradle/BaseModdevgradleImpl.kt:129-136 | an immediate request for a missing backend fails with UnknownConfiguration, leaving only the edgeless mod proxy behind |
| MdgProperties.FireRunsScriptsInOrder | src/main/kotlin/dev/isxander/modstitch/base/moddevgradle/BaseModdevgradleImpl.kt:222-226 | applying the marker runs queued build-script actions in registration order |
| MdgProperties.EnabledWiredProxy | src/main/kotlin/dev/isxander/modstitch/base/moddevgradle/BaseModdevgradleImpl.kt:134-154 | after the marker a block adds the backend edge and runs its enable-time action at once; every new edge ends at the new proxy, and on Regular only the backend extends it |
| MdgProperties.CreateAndExtendEdges | src/main/kotlin/dev/isxander/modstitch/base/moddevgradle/BaseModdevgradleImpl.kt:129-137 | creating a proxy and having the backend extend it adds that one edge and no other |
| MdgProperties.LeafEdgesEndAt | src/main/kotlin/dev/isxander/modstitch/base/moddevgradle/BaseModdevgradleImpl.kt:145-154 | the enable-time action of a proxy block adds edges to that proxy only |
| MdgProperties.EnabledProxies | src/main/kotlin/dev/isxander/modstitch/base/moddevgradle/BaseModdevgradleImpl.kt:134-155 | after the marker an immediate request adds all edges at once: backend to both proxies, `additionalRuntimeClasspath` to the regular one, and on Legacy the remap configuration to the mod one; on Regular nothing but the backend extends the mod proxy |
| MdgProperties.EdgesPersist | src/main/kotlin/dev/isxander/modstitch/base/moddevgradle/BaseModdevgradleImpl.kt:134-155 | an edge, once added, is never removed by later steps |
| MdgProperties.LegacyProxyNeedsRemap | src/main/kotlin/dev/isxander/modstitch/base/moddevgradle/BaseModdevgradleImpl.kt:139-142 | on Legacy, reading the remap configuration before `enable` set it fails after the mod proxy exists, and the regular proxy is never created |
| MdgProperties.GateKeepsRegistrationOrder | src/main/kotlin/dev/isxander/modstitch/base/moddevgradle/BaseModdevgradleImpl.kt:220-226 | an action registered before the marker waits, runs when the marker is applied, and precedes one registered afterwards |
| MdgProperties.LeafAddsItsEdge | src/main/kotlin/dev/isxander/modstitch/base/moddevgradle/BaseModdevgradleImpl.kt:134-154 | an enable-time closure succeeds when what it reads exists, and then adds its edge; the remap closure changes no configuration on Regular |
| MdgProperties.MarkerWiresDeferredProxies | src/main/kotlin/dev/isxander/modstitch/base/moddevgradle/BaseModdevgradleImpl.kt:129-155 | running the four queued actions of a deferred request adds all four edges |
| MdgProperties.DeferredWiringWaitsForBackend | src/main/kotlin/dev/isxander/modstitch/base/moddevgradle/BaseModdevgradleImpl.kt:129-155 | a deferred request may name a backend created later: once it exists and the marker is applied, every edge is in place |
| MdgProperties.DeferredRequestQueuesWiring | src/main/kotlin/dev/isxander/modstitch/base/moddevgradle/BaseModdevgradleImpl.kt:120-156 | a deferred request before the marker creates `modstitchModX` then `modstitchX` and queues their wiring |
| MdgProperties.JiJWaitsForMarker | src/main/kotlin/dev/isxander/modstitch/base/moddevgradle/BaseModdevgradleImpl.kt:158-164 | before the marker `modstitchJiJ` is created non-transitive and its `jarJar` edge is queued |
| MdgProperties.JiJWiredWhenEnabled | src/main/kotlin/dev/isxander/modstitch/base/moddevgradle/BaseModdevgradleImpl.kt:158-164 | after the marker `jarJar` extends `modstitchJiJ` at once, or the call fails when there is no `jarJar` |
| MdgProperties.MissingConfigurationFails | src/main/kotlin/dev/isxander/modstitch/base/BaseCommonImpl.kt:200-202 | a missing selected configuration fails with UnknownConfiguration and changes nothing |
| MdgProperties.OnlyMainProxiesLocalRuntime | src/main/kotlin/dev/isxander/modstitch/base/moddevgradle/BaseModdevgradleImpl.kt:166-174 | only the main source set queues the `localRuntime` proxy request, after the common selection succeeds |
| Moddevgradle.ModdevgradleImpl.constructor | src/main/kotlin/dev/isxander/modstitch/base/moddevgradle/BaseModdevgradleImpl.kt:30-31 | a new plugin has applied nothing, queued nothing and no remap configuration |
| Moddevgradle.ModdevgradleImpl.ExtendBackendNow | src/main/kotlin/dev/isxander/modstitch/base/moddevgradle/BaseModdevgradleImpl.kt:129-130 | the plugin's state changes as `MdgModel.ExtendBackendNow` says |
| Moddevgradle.ModdevgradleImpl.RunLeaf | src/main/kotlin/dev/isxander/modstitch/base/moddevgradle/BaseModdevgradleImpl.kt:134-154 | the plugin's state changes as `MdgModel.RunLeaf` says |
| Moddevgradle.ModdevgradleImpl.OnEnableLeaf | src/main/kotlin/dev/isxander/modstitch/base/moddevgradle/BaseModdevgradleImpl.kt:220-226 | the plugin's state changes as `MdgModel.OnEnableLeaf` says |
| Moddevgradle.ModdevgradleImpl.Wire | src/main/kotlin/dev/isxander/modstitch/base/moddevgradle/BaseModdevgradleImpl.kt:129-132 | the plugin's state changes as `MdgModel.Wire` says |
| Moddevgradle.ModdevgradleImpl.CreateWiredProxy | src/main/kotlin/dev/isxander/modstitch/base/moddevgradle/BaseModdevgradleImpl.kt:134-143 | the plugin's state changes as `MdgModel.CreateWiredProxy` says |
| Moddevgradle.ModdevgradleImpl.CreateProxyConfigurations | src/main/kotlin/dev/isxander/modstitch/base/moddevgradle/BaseModdevgradleImpl.kt:120-156 | the plugin's state changes as `MdgModel.CreateProxy` says |
| Moddevgradle.ModdevgradleImpl.Run | src/main/kotlin/dev/isxander/modstitch/base/moddevgradle/BaseModdevgradleImpl.kt:222-226 | the plugin's state changes as `MdgModel.Run` says |
| Moddevgradle.ModdevgradleImpl.OnEnable | src/main/kotlin/dev/isxander/modstitch/base/moddevgradle/BaseModdevgradleImpl.kt:222-226 | the plugin's state changes as `MdgModel.OnEnable` says |
| Moddevgradle.ModdevgradleImpl.ApplyPlugin | src/main/kotlin/dev/isxander/modstitch/base/moddevgradle/BaseModdevgradleImpl.kt:222-226 | the loop runs the queue in order and stops at the first failure, as `MdgModel.ApplyPlugin` says |
| Moddevgradle.ModdevgradleImpl.Enable | src/main/kotlin/dev/isxander/modstitch/base/moddevgradle/BaseModdevgradleImpl.kt:90-101 | the plugin's state changes as `MdgModel.Enable` says, including the AlreadyExists failure that leaves it unchanged |
| Moddevgradle.ModdevgradleImpl.ProxyEach | src/main/kotlin/dev/isxander/modstitch/base/BaseCommonImpl.kt:200-202 | the loop fetches and proxies each name in order, as `MdgModel.ProxyEach` says; under the same readiness condition every name extends both of its proxies |
| Moddevgradle.ModdevgradleImpl.CreateProxyConfigurationsForSourceSet | src/main/kotlin/dev/isxander/modstitch/base/moddevgradle/BaseModdevgradleImpl.kt:166-174 | the plugin's state changes as `MdgModel.CreateProxyForSourceSet` says; on success every selected configuration that was ready extends both of its proxies |
| Moddevgradle.ModdevgradleImpl.ConfigureJiJConfiguration | src/main/kotlin/dev/isxander/modstitch/base/moddevgradle/BaseModdevgradleImpl.kt:158-164 | the plugin's state changes as `MdgModel.ConfigureJiJ` says |
| Moddevgradle.ModdevgradleImpl.CreateJiJConfiguration | src/main/kotlin/dev/isxander/modstitch/base/BaseCommonImpl.kt:79-83 | the plugin's state changes as `MdgModel.CreateJiJ` says |
| LoomModel.FindRemap | src/main/kotlin/dev/isxander/modstitch/base/loom/BaseLoomImpl.kt:77-78 | the first remap configuration targeting the name, or none exactly when no remap configuration targets it |
| LoomModel.CreateProxy | src/main/kotlin/dev/isxander/modstitch/base/loom/BaseLoomImpl.kt:76-92 | fails with NoRemapConfiguration and changes nothing when no remap targets the name; otherwise succeeds exactly when both proxy names are free, appending mod then regular proxy, the remap extending the mod proxy and the backend the regular one |
| LoomModel.ConfigureJiJ | src/main/kotlin/dev/isxander/modstitch/base/loom/BaseLoomImpl.kt:94-98 | `include` extends the configuration at once, or the call fails with UnknownConfiguration(`include`) and changes nothing |
| LoomModel.CreateJiJ | src/main/kotlin/dev/isxander/modstitch/base/BaseCommonImpl.kt:79-83 | `modstitchJiJ` is created non-transitive and `include` extends it at once; a taken name fails and changes nothing |
| LoomModel.RegisterRemaps | src/main/kotlin/dev/isxander/modstitch/base/loom/BaseLoomImpl.kt:70 | on success the remap list is the old list followed by the new remap configurations, all of them registered |
| LoomModel.ProxyEach | src/main/kotlin/dev/isxander/modstitch/base/BaseCommonImpl.kt:200-202 | on success every selected configuration exists and is proxied: both proxies exist, its remap configuration extends the mod proxy and it extends the regular proxy; the remap list is unchanged and nothing is removed |
| LoomModel.MissingConfigurationFails | src/main/kotlin/dev/isxander/modstitch/base/BaseCommonImpl.kt:200-202 | a missing first configuration fails with UnknownConfiguration and changes nothing |
| LoomModel.UnremappedConfigurationFails | src/main/kotlin/dev/isxander/modstitch/base/loom/BaseLoomImpl.kt:77-79 | a first configuration without a remap configuration fails with NoRemapConfiguration and changes nothing |
| LoomModel.CreateProxyForSourceSet | src/main/kotlin/dev/isxander/modstitch/base/loom/BaseLoomImpl.kt:68-74 | main proxies the selection directly; another source set first registers its remap configurations; on success every selected configuration of the source set is proxied, and nothing is removed |
| LoomModel.CheckParchment | src/main/kotlin/dev/isxander/modstitch/base/loom/BaseLoomImpl.kt:43-47 | an enabled parchment block is a ParchmentUnsupported failure, and only then |
| LoomModel.RepeatRequestFails | src/main/kotlin/dev/isxander/modstitch/base/loom/BaseLoomImpl.kt:81-89 | a second request for the same configuration fails with AlreadyExists on the mod proxy and changes nothing |
| LoomModel.ProxyTouchesOnlyItsEnds | src/main/kotlin/dev/isxander/modstitch/base/loom/BaseLoomImpl.kt:84-91 | a successful request adds exactly the two proxies, without edges, and changes no configuration but the backend and the remap |
| Loom.LoomImpl.constructor | src/main/kotlin/dev/isxander/modstitch/base/loom/BaseLoomImpl.kt:22 | a new plugin has no remap configurations recorded |
| Loom.LoomImpl.CreateProxyConfigurations | src/main/kotlin/dev/isxander/modstitch/base/loom/BaseLoomImpl.kt:76-92 | the plugin's state changes as `LoomModel.CreateProxy` says |
| Loom.LoomImpl.ConfigureJiJConfiguration | src/main/kotlin/dev/isxander/modstitch/base/loom/BaseLoomImpl.kt:94-98 | the plugin's state changes as `LoomModel.ConfigureJiJ` says |
| Loom.LoomImpl.CreateJiJConfiguration | src/main/kotlin/dev/isxander/modstitch/base/BaseCommonImpl.kt:79-83 | the plugin's state changes as `LoomModel.CreateJiJ` says |
| Loom.LoomImpl.CreateRemapConfigurations | src/main/kotlin/dev/isxander/modstitch/base/loom/BaseLoomImpl.kt:70 | the loop creates and records each remap configuration in order, as `LoomModel.RegisterRemaps` says |
| Loom.LoomImpl.ProxyEach | src/main/kotlin/dev/isxander/modstitch/base/BaseCommonImpl.kt:200-202 | the loop fetches and proxies each name in order, as `LoomModel.ProxyEach` says; on success every name is proxied |
| Loom.LoomImpl.CreateProxyConfigurationsForSourceSet | src/main/kotlin/dev/isxander/modstitch/base/loom/BaseLoomImpl.kt:68-74 | the plugin's state changes as `LoomModel.CreateProxyForSourceSet` says; on success every selected configuration is proxied |
| Extension.ModstitchExtensionImpl.constructor | src/main/kotlin/dev/isxander/modstitch/base/extensions/Modstitch.kt:130-134 | the extension keeps the plugin it is created with |
| Extension.ModstitchExtensionImpl.Platform | src/main/kotlin/dev/isxander/modstitch/base/extensions/Modstitch.kt:153-154 | the platform is Loom exactly for the Loom plugin, and otherwise the platform of the ModDevGradle type |
| Extension.ModstitchExtensionImpl.PlatformFlags | src/main/kotlin/dev/isxander/modstitch/base/extensions/Modstitch.kt:155-162 | each `is*` flag holds exactly for the plugins of its platform |
| Extension.ModstitchExtensionImpl.PlatformExtensionFor | src/main/kotlin/dev/isxander/modstitch/base/extensions/Modstitch.kt:164-172 | a platform action runs exactly when the requested extension type is the plugin's |
| Extension.ModstitchExtensionImpl.CreateProxyConfigurations | src/main/kotlin/dev/isxander/modstitch/base/extensions/Modstitch.kt:148-149 | the request goes to the plugin with an already materialised reference and `defer` false |
| Extension.ModstitchExtensionImpl.CreateProxyConfigurationsForSourceSet | src/main/kotlin/dev/isxander/modstitch/base/extensions/Modstitch.kt:150-151 | the request goes to the plugin's source-set overload unchanged |
| Extension.ModstitchExtensionImpl.OnEnable | src/main/kotlin/dev/isxander/modstitch/base/extensions/Modstitch.kt:177-179 | the action goes to the ModDevGradle plugin's `onEnable` unchanged |
| Extension.ShorthandCoverage | src/main/kotlin/dev/isxander/modstitch/base/extensions/Modstitch.kt:86-95 | the main source set proxies the five documented configurations plus `localRuntime`; any other source set proxies three |

## Left out

- Plugin application is not modelled: the `apply` bodies, extension creation, the IDEA
  model, run configuration, `ideSyncTask`, Loom dependency declarations and the Java
  toolchain. They only call Gradle, NeoForge and Loom APIs. The model takes two steps of
  `apply` on their own: the main source-set proxy request and the `modstitchJiJ`
  creation.
- The creation of `localRuntime` inside the ModDevGradle `apply` is not modelled;
  `localRuntime` is whatever configuration of that name the container holds.
- `enable`'s calls into the obfuscation and mixin extensions, and the Legacy mixin setup
  with its jar-manifest attribute, are not modelled. They go to ModDevGradle code that is
  not part of this model.
- The TOML and JSON encoders are not modelled. `Mixins` models only the entry lists handed
  to them; the "side ignored" warning is a flag on the entry.
- Resource processing is not modelled: copying, `expand`, and the lazy evaluation of
  Gradle providers. Every property value is taken as already resolved.
- `addCamelCasePrefix`, `FutureNamedDomainObjectProvider`, `Platform` and
  `EnabledMarkerPlugin` are not part of this model. Each is specified only through its
  uses, as follows:
  - the prefix is followed by the name with its first letter upper-cased;
  - a reference is `Materialized` or `Deferred`, and `get` looks the name up;
  - the manifests are the ones the `modLoaderManifest` documentation names;
  - the marker id is a fixed string, because its real value is not shown.
- Names.UpperChar: upper-cases ASCII letters only. Configuration names do not use other
  scripts.
- What applies the enabled marker is not shown. `ApplyPlugin` models
  `pluginManager.apply` for any id, and `enable` does not apply the marker itself.
- Loom's `remapConfigurations` list and `createRemapConfigurations(sourceSet)` belong to
  Loom. The remap configurations a source set gets are a parameter. A new `LoomImpl` has
  none recorded; the main source set's remap configurations, which Loom records when it is
  applied, are seeded by a caller through `CreateRemapConfigurations`.
- Extension.ModstitchExtensionImpl.OnEnable: covers only the ModDevGradle plugin, because
  the Loom plugin's `onEnable` is not in the files modelled here.
- The files come from slightly different revisions. `src/main/kotlin/dev/isxander/modstitch/base/BaseCommonImpl.kt:204` declares the
  abstract overload with a plain `Configuration`, while the ModDevGradle plugin and the
  extension pass a reference and a `defer` flag. The model uses the reference form. A
  plain configuration is a `Materialized` reference with `defer` false; Loom receives
  just its name.
- MdgModel.Valid: does not include that the creation order lists each configuration once.
  The container object's invariant (`Gradle.Listed`) carries that instead.
- `named(name) { ... }` runs its action at once, as Gradle does for the eager configuration
  container. Failures keep only their kind and the name involved, not the message text.
- The parchment check runs in `afterEvaluate`. `CheckParchment` is a function of the
  resolved `enabled` flag.
- `templatesSourceDirectorySet`, the parchment, metadata and mixin blocks, logging, and
  `PublishingModdevgradleImpl.kt` are not modelled. The blocks only hold properties. The
  publishing file configures an external extension.

## Findings

| source | as written | input that shows it | evidently intended | confidence | as-written member | corrected member |
|---|---|---|---|---|---|---|
| src/main/kotlin/dev/isxander/modstitch/base/BaseCommonImpl.kt:173-180 | The exclude filter tests `fileTreeElement.name`, the file's base name, against the known manifests. Two of those are paths under `META-INF/`. | On Loom, the template `META-INF/neoforge.mods.toml` has base name `neoforge.mods.toml`. That is not a known manifest, so the file is copied into the output. | Test the file's path relative to the templates root. Every other platform's manifest is then excluded. | not executed; depends on `Platform.allModManifests` holding the paths the `modLoaderManifest` documentation gives | Templates.AsWrittenKeepsModDevGradleManifests | Templates.ExcludesExactlyOtherManifests |
