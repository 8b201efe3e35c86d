/** The per-config entries each platform's mixin serializer hands to its encoder (JSON on
    Loom, TOML on ModDevGradle). The encoders themselves are not part of this model. */
module Mixins {
  import opened Results

  datatype Side = Both | Client | Server

  /** A registered mixin config; `config` and `side` are Gradle properties that may be unset. */
  datatype MixinConfig = MixinConfig(name: string, config: Option<string>, side: Option<Side>)

  /** The `environment` string Loom's fabric.mod.json uses for a side. */
  function LoomEnvironment(side: Side): string
  {
    match side
    case Both => "*"
    case Client => "client"
    case Server => "server"
  }

  lemma LoomEnvironmentInjective(a: Side, b: Side)
    ensures LoomEnvironment(a) == LoomEnvironment(b) <==> a == b
    ensures LoomEnvironment(Both) == "*"
  {
  }

  datatype FmjMixinConfig = FmjMixinConfig(config: string, environment: string)

  /** A config the Loom serializer can encode: both of its properties are set. */
  predicate LoomReady(c: MixinConfig) { c.config.Some? && c.side.Some? }

  /** Loom: one entry per config, in order, with the config and the side's environment. The
      first config whose `config` (read first) or `side` is unset fails the whole list. */
  function LoomMixinEntries(configs: seq<MixinConfig>): (r: Result<seq<FmjMixinConfig>>)
    ensures r.Ok? <==> forall i :: 0 <= i < |configs| ==> LoomReady(configs[i])
    ensures r.Ok? ==> |r.value| == |configs|
    ensures r.Ok? ==> forall i :: 0 <= i < |configs| ==>
              r.value[i] == FmjMixinConfig(configs[i].config.value, LoomEnvironment(configs[i].side.value))
    ensures r.Err? ==> (exists i :: 0 <= i < |configs| && !LoomReady(configs[i]) &&
                          (forall j :: 0 <= j < i ==> LoomReady(configs[j])) &&
                          r.error == MissingValue(configs[i].name))
  {
    if configs == [] then Ok([])
    else
      var c := configs[0];
      if c.config.None? || c.side.None? then Err(MissingValue(c.name))
      else
        var rest := LoomMixinEntries(configs[1..]);
        if rest.Err? then
          assert forall i :: 1 <= i < |configs| ==> configs[i] == configs[1..][i - 1];
          rest
        else Ok([FmjMixinConfig(c.config.value, LoomEnvironment(c.side.value))] + rest.value)
  }

  /** An entry of the ModDevGradle `mixins` list, and whether a side was ignored for it. */
  datatype MdgMixinEntry = MdgMixinEntry(config: string, sideIgnored: bool)

  /** An unset side counts as Both. */
  function SideOrBoth(c: MixinConfig): Side
  {
    if c.side.Some? then c.side.value else Both
  }

  /** ModDevGradle: one entry per config, in order, holding only the config; a side other
      than Both is reported and dropped. An unset `config` fails the whole list. */
  function MdgMixinEntries(configs: seq<MixinConfig>): (r: Result<seq<MdgMixinEntry>>)
    ensures r.Ok? <==> forall i :: 0 <= i < |configs| ==> configs[i].config.Some?
    ensures r.Ok? ==> |r.value| == |configs|
    ensures r.Ok? ==> forall i :: 0 <= i < |configs| ==>
              r.value[i].config == configs[i].config.value &&
              (r.value[i].sideIgnored <==> SideOrBoth(configs[i]) != Both)
    ensures r.Err? ==> (exists i :: 0 <= i < |configs| && configs[i].config.None? &&
                          (forall j :: 0 <= j < i ==> configs[j].config.Some?) &&
                          r.error == MissingValue(configs[i].name))
  {
    if configs == [] then Ok([])
    else
      var c := configs[0];
      if c.config.None? then Err(MissingValue(c.name))
      else
        var rest := MdgMixinEntries(configs[1..]);
        if rest.Err? then
          assert forall i :: 1 <= i < |configs| ==> configs[i] == configs[1..][i - 1];
          rest
        else Ok([MdgMixinEntry(c.config.value, SideOrBoth(c) != Both)] + rest.value)
  }

  /** A config with an unset side is accepted by ModDevGradle but fails on Loom. */
  lemma UnsetSideDiffers(name: string, config: string)
    ensures MdgMixinEntries([MixinConfig(name, Some(config), None)]) == Ok([MdgMixinEntry(config, false)])
    ensures LoomMixinEntries([MixinConfig(name, Some(config), None)]) == Err(MissingValue(name))
  {
    var cs := [MixinConfig(name, Some(config), None)];
    assert cs[1..] == [];
    assert MdgMixinEntries(cs[1..]) == Ok([]);
    assert [MdgMixinEntry(config, false)] + [] == [MdgMixinEntry(config, false)];
  }
}
