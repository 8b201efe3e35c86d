/** The template step that produces the mod metadata: the property map handed to `expand`
    and the filter that keeps other platforms' manifests out of the output. */
module Templates {
  import opened Results
  import opened Platforms

  /** The resolved values of the ten base properties. */
  datatype MetadataValues = MetadataValues(
    minecraftVersion: string, modVersion: string, modName: string, modId: string,
    modLicense: string, modDescription: string, modGroup: string, modAuthor: string,
    modCredits: string, modMixins: string)

  const BaseKeys: set<string> := {"minecraft_version", "mod_version", "mod_name", "mod_id",
    "mod_license", "mod_description", "mod_group", "mod_author", "mod_credits", "mod_mixins"}

  function BaseProperties(v: MetadataValues): (m: map<string, string>)
    ensures m.Keys == BaseKeys
    ensures m["mod_id"] == v.modId && m["mod_version"] == v.modVersion
    ensures m["minecraft_version"] == v.minecraftVersion && m["mod_mixins"] == v.modMixins
    ensures m["mod_name"] == v.modName && m["mod_license"] == v.modLicense
    ensures m["mod_description"] == v.modDescription && m["mod_group"] == v.modGroup
    ensures m["mod_author"] == v.modAuthor && m["mod_credits"] == v.modCredits
  {
    map["minecraft_version" := v.minecraftVersion, "mod_version" := v.modVersion,
        "mod_name" := v.modName, "mod_id" := v.modId, "mod_license" := v.modLicense,
        "mod_description" := v.modDescription, "mod_group" := v.modGroup,
        "mod_author" := v.modAuthor, "mod_credits" := v.modCredits, "mod_mixins" := v.modMixins]
  }

  lemma BaseKeyCount()
    ensures |BaseKeys| == 10
  {
    var ks := ["minecraft_version", "mod_version", "mod_name", "mod_id", "mod_license",
               "mod_description", "mod_group", "mod_author", "mod_credits", "mod_mixins"];
    assert BaseKeys == set k | k in ks;
    DistinctSeqSetSize(ks);
  }

  lemma {:induction false} DistinctSeqSetSize(ks: seq<string>)
    requires forall i, j :: 0 <= i < j < |ks| ==> ks[i] != ks[j]
    ensures |set k | k in ks| == |ks|
  {
    if ks != [] {
      DistinctSeqSetSize(ks[1..]);
      assert (set k | k in ks) == {ks[0]} + (set k | k in ks[1..]);
      assert ks[0] !in (set k | k in ks[1..]);
    }
  }

  /** All properties: the base properties, then the replacement properties laid over them, so
      a replacement wins over a base property of the same name. */
  function AllProperties(v: MetadataValues, replacements: map<string, string>): (r: map<string, string>)
    ensures r.Keys == BaseKeys + replacements.Keys
    ensures forall k :: k in replacements ==> r[k] == replacements[k]
    ensures forall k :: k in BaseKeys && k !in replacements ==> r[k] == BaseProperties(v)[k]
  {
    BaseProperties(v) + replacements
  }

  /** With no replacements, the mod id is expanded to the metadata value; a replacement
      property named `mod_id` overrides it. */
  lemma ReplacementOverridesBase(v: MetadataValues, x: string)
    ensures AllProperties(v, map[])["mod_id"] == v.modId
    ensures AllProperties(v, map["mod_id" := x])["mod_id"] == x
    ensures |AllProperties(v, map["mod_id" := x])| == 10
  {
    var r := AllProperties(v, map["mod_id" := x]);
    assert "mod_id" in BaseKeys;
    assert r.Keys == BaseKeys;
    BaseKeyCount();
    assert |r| == |r.Keys|;
  }

  /** A file of the template tree, as its path relative to the tree's root. */
  datatype FileTreeElement = FileTreeElement(segments: seq<string>)

  /** `FileTreeElement.name`: the base name, the last segment of the path. */
  function Name(e: FileTreeElement): string
  {
    if e.segments == [] then "" else e.segments[|e.segments| - 1]
  }

  function JoinPath(segments: seq<string>): string
  {
    if segments == [] then ""
    else if |segments| == 1 then segments[0]
    else segments[0] + "/" + JoinPath(segments[1..])
  }

  lemma JoinTwo(a: string, b: string)
    ensures JoinPath([a, b]) == a + "/" + b
  {
    assert [a, b][1..] == [b];
  }

  /** The relative path written out with `/` separators. */
  function PathString(e: FileTreeElement): string
  {
    JoinPath(e.segments)
  }

  /** `allModManifests - currentManifest`: every known manifest other than the current one. */
  function ManifestsToExclude(current: Option<string>): (r: set<string>)
    ensures forall m :: m in r <==> m in AllModManifests && current != Some(m)
  {
    if current.Some? then AllModManifests - {current.value} else AllModManifests
  }

  /** The exclude predicate as written: it tests the file's base name. */
  predicate ExcludedAsWritten(e: FileTreeElement, current: Option<string>)
  {
    Name(e) in ManifestsToExclude(current)
  }

  /** The exclude predicate as intended: it tests the file's path relative to the templates
      root, which is how the manifests are written. */
  predicate Excluded(e: FileTreeElement, current: Option<string>)
  {
    PathString(e) in ManifestsToExclude(current)
  }

  /** Where each platform's manifest lives in the template tree. */
  function ManifestFile(p: Platform): (e: FileTreeElement)
    ensures PathString(e) == ModManifest(p)
  {
    match p
    case Loom => FileTreeElement(["fabric.mod.json"])
    case MDG =>
      JoinTwo(MetaInf, "neoforge.mods.toml");
      FileTreeElement([MetaInf, "neoforge.mods.toml"])
    case MDGLegacy =>
      JoinTwo(MetaInf, "mods.toml");
      FileTreeElement([MetaInf, "mods.toml"])
  }

  /** As written, the base name of a ModDevGradle manifest is never a known manifest, so those
      files are never excluded, whatever the current manifest is; on Loom the NeoForge
      manifest template is therefore copied into the output. */
  lemma AsWrittenKeepsModDevGradleManifests(current: Option<string>)
    ensures !ExcludedAsWritten(ManifestFile(MDG), current)
    ensures !ExcludedAsWritten(ManifestFile(MDGLegacy), current)
    ensures PathString(ManifestFile(MDG)) in ManifestsToExclude(Some(ModManifest(Loom)))
  {
    assert Name(ManifestFile(MDG)) == "neoforge.mods.toml";
    assert Name(ManifestFile(MDGLegacy)) == "mods.toml";
    assert "neoforge.mods.toml" != ModManifest(Loom);
    assert |"neoforge.mods.toml"| != |ModManifest(MDG)|;
    assert "neoforge.mods.toml"[0] != ModManifest(MDGLegacy)[0];
    assert |"mods.toml"| != |ModManifest(Loom)|;
    assert |"mods.toml"| != |ModManifest(MDG)| && |"mods.toml"| != |ModManifest(MDGLegacy)|;
  }

  /** As intended: on platform `p` the manifest of platform `q` is excluded exactly when it is
      another platform's manifest. */
  lemma {:induction false} ExcludesExactlyOtherManifests(p: Platform, q: Platform)
    ensures Excluded(ManifestFile(q), Some(ModManifest(p))) <==> p != q
  {
    ManifestsDistinct(q, p);
  }

  /** As intended: with no current manifest every manifest file is excluded, and a file whose
      path is not a manifest is always kept. */
  lemma ExcludedOnlyManifests(e: FileTreeElement, current: Option<string>, q: Platform)
    ensures Excluded(ManifestFile(q), None)
    ensures PathString(e) !in AllModManifests ==> !Excluded(e, current)
  {
  }
}
