/** The three build backends, the flags the `modstitch` extension derives from them, their mod
    manifests, and the type test behind `loom { }` and `moddevgradle { }`. */
module Platforms {
  import opened Results

  datatype Platform = Loom | MDG | MDGLegacy

  /** The two flavours of the ModDevGradle plugin. */
  datatype MDGType = Regular | Legacy

  /** `MDGType.platform`. */
  function PlatformOf(t: MDGType): (p: Platform)
    ensures p != Loom
    ensures (p == MDG) <==> (t == Regular)
  {
    match t
    case Regular => MDG
    case Legacy => MDGLegacy
  }

  predicate IsLoom(p: Platform) { p == Loom }
  predicate IsModDevGradle(p: Platform) { p == MDG || p == MDGLegacy }
  predicate IsModDevGradleRegular(p: Platform) { p == MDG }
  predicate IsModDevGradleLegacy(p: Platform) { p == MDGLegacy }

  /** Every platform is exactly one of Loom and ModDevGradle, and a ModDevGradle platform is
      exactly one of Regular and Legacy. */
  lemma FlagsPartition(p: Platform)
    ensures IsLoom(p) != IsModDevGradle(p)
    ensures IsModDevGradle(p) <==> (IsModDevGradleRegular(p) != IsModDevGradleLegacy(p))
    ensures !IsModDevGradle(p) ==> !IsModDevGradleRegular(p) && !IsModDevGradleLegacy(p)
  {
  }

  /** The flags the `modstitch` extension exposes; all of them come from the plugin's platform. */
  datatype Flags = Flags(platform: Platform, isLoom: bool, isModDevGradle: bool,
                         isModDevGradleRegular: bool, isModDevGradleLegacy: bool)

  function ExtensionFlags(pluginPlatform: Platform): (f: Flags)
    ensures f.platform == pluginPlatform
    ensures f.isLoom <==> pluginPlatform == Loom
    ensures f.isModDevGradle <==> pluginPlatform != Loom
    ensures f.isModDevGradleRegular <==> pluginPlatform == MDG
    ensures f.isModDevGradleLegacy <==> pluginPlatform == MDGLegacy
  {
    Flags(pluginPlatform, IsLoom(pluginPlatform), IsModDevGradle(pluginPlatform),
          IsModDevGradleRegular(pluginPlatform), IsModDevGradleLegacy(pluginPlatform))
  }

  /** The directory of the jar that holds the ModDevGradle manifests. */
  const MetaInf: string := "META-INF"

  /** The mod manifest of each platform: `META-INF/neoforge.mods.toml` and
      `META-INF/mods.toml` for the two ModDevGradle types. */
  function ModManifest(p: Platform): string
  {
    match p
    case Loom => "fabric.mod.json"
    case MDG => MetaInf + "/" + "neoforge.mods.toml"
    case MDGLegacy => MetaInf + "/" + "mods.toml"
  }

  const AllModManifests: set<string> := {ModManifest(Loom), ModManifest(MDG), ModManifest(MDGLegacy)}

  /** Each platform has its own manifest. */
  lemma ManifestsDistinct(p: Platform, q: Platform)
    ensures ModManifest(p) in AllModManifests
    ensures ModManifest(p) == ModManifest(q) <==> p == q
  {
  }

  /** The manifest the ModDevGradle plugin selects for its type. */
  function MdgManifest(t: MDGType): (m: string)
    ensures m == ModManifest(PlatformOf(t))
    ensures m != ModManifest(Loom)
  {
    match t
    case Regular => ModManifest(MDG)
    case Legacy => ModManifest(MDGLegacy)
  }

  /** The platform extension object a plugin holds (real or dummy, the type is what counts). */
  datatype PlatformExtension = LoomExtension | ModDevGradleExtension(mdgType: MDGType)

  /** The extension interfaces an action can be written against. */
  datatype ExtensionType = BaseLoomExtension | BaseModDevGradleExtension

  function TypeOf(ext: PlatformExtension): ExtensionType
  {
    if ext.LoomExtension? then BaseLoomExtension else BaseModDevGradleExtension
  }

  /** The extension each plugin registers. */
  function PlatformExtensionOf(p: Platform): (ext: PlatformExtension)
    ensures ext.LoomExtension? <==> p == Loom
    ensures ext.ModDevGradleExtension? ==> PlatformOf(ext.mdgType) == p
  {
    match p
    case Loom => LoomExtension
    case MDG => ModDevGradleExtension(Regular)
    case MDGLegacy => ModDevGradleExtension(Legacy)
  }

  /** `platformExtension<T>(action)`: the extension the action is executed on, or None when the
      extension is not a T and the action does not run. */
  function Dispatch(ext: PlatformExtension, wanted: ExtensionType): (r: Option<PlatformExtension>)
    ensures r.Some? <==> TypeOf(ext) == wanted
    ensures r.Some? ==> r.value == ext
  {
    if TypeOf(ext) == wanted then Some(ext) else None
  }

  /** `loom(action)` runs its action only on Loom, `moddevgradle(action)` only on the two
      ModDevGradle platforms, and never both. */
  lemma PlatformActionsRunOnTheirPlatform(p: Platform)
    ensures Dispatch(PlatformExtensionOf(p), BaseLoomExtension).Some? <==> IsLoom(p)
    ensures Dispatch(PlatformExtensionOf(p), BaseModDevGradleExtension).Some? <==> IsModDevGradle(p)
    ensures Dispatch(PlatformExtensionOf(p), BaseLoomExtension).Some?
            != Dispatch(PlatformExtensionOf(p), BaseModDevGradleExtension).Some?
  {
  }
}
