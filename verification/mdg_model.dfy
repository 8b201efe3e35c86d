/** The ModDevGradle plugin's configuration wiring, as functions on a value of its state: the
    configuration container, the applied plugin ids, the actions waiting for the enabled
    marker plugin, a log of the actions that have run, and the Legacy remap configuration.

    An action registered with `onEnable` goes through `withPlugin(marker)`: it runs at once when
    the marker is applied, and otherwise waits in a first-in first-out queue that applying the
    marker runs. The closures the plugin registers are written as `Action` values. */
module MdgModel {
  import opened Results
  import opened Names
  import opened Platforms
  import opened Gradle

  /** The id of the marker plugin applied once the platform plugin is fully set up. */
  const EnabledMarker: string := "dev.isxander.modstitch.enabled"
  const AdditionalRuntimeClasspath: string := "additionalRuntimeClasspath"
  const JarJar: string := "jarJar"
  const MdgRemap: string := "modstitchMdgRemap"

  /** A reference to a backend configuration: one already in hand, or one looked up by name
      when it is first needed. Either way `get` fails when no configuration has that name. */
  datatype Ref = Materialized(name: string) | Deferred(name: string)

  function Resolve(c: Container, ref: Ref): Result<string>
  {
    Lookup(c, ref.name)
  }

  /** The closures registered on the marker plugin. `Script` is an action supplied by a build
      script through the extension's `onEnable`. */
  datatype Action =
    | ExtendBackend(backend: Ref, proxy: string)   // backend.extendsFrom(proxy)
    | ExtendRemap(proxy: string)                   // on Legacy, remapConfiguration.extendsFrom(proxy)
    | ExtendNamed(child: string, parent: string)   // named(child) { extendsFrom(parent) }
    | ProxyLocalRuntime                            // proxy `localRuntime`, deferred
    | Script(id: nat)

  datatype MdgState = MdgState(
    container: Container,
    plugins: set<string>,
    pending: seq<Action>,
    ran: seq<Action>,
    remap: Option<string>)

  predicate Enabled(s: MdgState)
  {
    EnabledMarker in s.plugins
  }

  /** The configuration an action adds an edge to exists. */
  predicate Targets(a: Action, c: Container)
  {
    match a
    case ExtendBackend(_, p) => p in c.configs
    case ExtendRemap(p) => p in c.configs
    case ExtendNamed(_, p) => p in c.configs
    case _ => true
  }

  predicate AllTarget(q: seq<Action>, c: Container)
  {
    forall i :: 0 <= i < |q| ==> Targets(q[i], c)
  }

  /** The container is well formed, the remap configuration (once set) exists, nothing waits
      once the marker is applied, and waiting actions point at existing configurations. */
  ghost predicate Valid(s: MdgState)
  {
    && WellFormed(s.container)
    && (s.remap.Some? ==> s.remap.value in s.container.configs)
    && (Enabled(s) ==> s.pending == [])
    && AllTarget(s.pending, s.container)
  }

  /** What running actions can do: create configurations (in order) and add edges, never
      remove one, append to the queue and to the log. Plugins and the remap configuration are left alone. */
  ghost predicate Grows(s: MdgState, s': MdgState)
  {
    && s.container.order <= s'.container.order
    && s.container.configs.Keys <= s'.container.configs.Keys
    && (forall n :: n in s.container.configs ==>
          s.container.configs[n].extendsFrom <= s'.container.configs[n].extendsFrom)
    && s.pending <= s'.pending
    && s.ran <= s'.ran
    && s.plugins == s'.plugins
    && s.remap == s'.remap
  }

  /** What the rest of a queue points at still exists once the state has grown. */
  lemma TargetsKept(q: seq<Action>, s: MdgState, s': MdgState)
    requires q != [] && AllTarget(q, s.container) && Grows(s, s')
    ensures AllTarget(q[1..], s'.container)
  {
    forall i | 0 <= i < |q[1..]|
      ensures Targets(q[1..][i], s'.container)
    {
      assert q[1..][i] == q[i + 1] && Targets(q[i + 1], s.container);
    }
  }

  /** An action that only adds an edge or does nothing when it runs: every action except
      `ProxyLocalRuntime`, which creates proxies. */
  predicate Leaf(a: Action)
  {
    !a.ProxyLocalRuntime?
  }

  /** `backend.extendsFrom(proxy)` after `get` on the reference. */
  function ExtendBackendNow(s: MdgState, ref: Ref, proxy: string): (r: (MdgState, Outcome))
    requires Valid(s) && proxy in s.container.configs
    ensures Valid(r.0) && Grows(s, r.0)
    ensures r.0.container.order == s.container.order && r.0.pending == s.pending && r.0.ran == s.ran
    ensures r.1.Pass? <==> ref.name in s.container.configs
    ensures r.1.Fail? ==> r.0 == s && r.1.error == UnknownConfiguration(ref.name)
    ensures r.1.Pass? ==> r.0.container == ExtendIn(s.container, ref.name, proxy)
  {
    match Resolve(s.container, ref)
    case Err(e) => (s, Fail(e))
    case Ok(b) => (s.(container := ExtendIn(s.container, b, proxy)), Pass)
  }

  /** Runs a leaf action: it is logged first, then performed. */
  function RunLeaf(t: MDGType, s: MdgState, a: Action): (r: (MdgState, Outcome))
    requires Valid(s) && Leaf(a) && Targets(a, s.container)
    ensures Valid(r.0) && Grows(s, r.0)
    ensures r.0.container.order == s.container.order && r.0.pending == s.pending
    ensures r.0.ran == s.ran + [a]
  {
    var s1 := s.(ran := s.ran + [a]);
    match a
    case ExtendBackend(ref, proxy) => ExtendBackendNow(s1, ref, proxy)
    case ExtendRemap(proxy) =>
      if t == Regular then (s1, Pass)
      else if s1.remap.None? then (s1, Fail(Uninitialized("remapConfiguration")))
      else (s1.(container := ExtendIn(s1.container, s1.remap.value, proxy)), Pass)
    case ExtendNamed(child, parent) =>
      if child !in s1.container.configs then (s1, Fail(UnknownConfiguration(child)))
      else (s1.(container := ExtendIn(s1.container, child, parent)), Pass)
    case Script(_) => (s1, Pass)
  }

  /** `onEnable` for a leaf action: `withPlugin(marker)` runs it now when the marker is
      applied and queues it otherwise. */
  function OnEnableLeaf(t: MDGType, s: MdgState, a: Action): (r: (MdgState, Outcome))
    requires Valid(s) && Leaf(a) && Targets(a, s.container)
    ensures Valid(r.0) && Grows(s, r.0)
    ensures r.0.container.order == s.container.order
    ensures !Enabled(s) ==> r == (s.(pending := s.pending + [a]), Pass)
    ensures Enabled(s) ==> r == RunLeaf(t, s, a)
  {
    if Enabled(s) then RunLeaf(t, s, a) else (s.(pending := s.pending + [a]), Pass)
  }

  /** The local `deferred`: backend.extendsFrom(proxy) now, or once enabled. */
  function Wire(t: MDGType, s: MdgState, ref: Ref, defer: bool, proxy: string): (r: (MdgState, Outcome))
    requires Valid(s) && proxy in s.container.configs
    ensures Valid(r.0) && Grows(s, r.0)
    ensures r.0.container.order == s.container.order
  {
    if !defer then ExtendBackendNow(s, ref, proxy)
    else OnEnableLeaf(t, s, ExtendBackend(ref, proxy))
  }

  /** One `create(name) proxy@{ deferred { it.extendsFrom(proxy) }; onMdgEnable { a } }` block:
      the proxy is added to the container before its block runs. */
  function CreateWiredProxy(t: MDGType, s: MdgState, ref: Ref, defer: bool, name: string, a: Action)
    : (r: (MdgState, Outcome))
    requires Valid(s)
    requires a == ExtendRemap(name) || a == ExtendNamed(AdditionalRuntimeClasspath, name)
    ensures Valid(r.0) && Grows(s, r.0)
    ensures name in s.container.configs ==> r == (s, Fail(AlreadyExists(name)))
    ensures name !in s.container.configs ==> r.0.container.order == s.container.order + [name]
  {
    var r1 := CreateIn(s.container, name, true);
    if r1.1.Fail? then (s, r1.1)
    else
      var r2 := Wire(t, s.(container := r1.0), ref, defer, name);
      if r2.1.Fail? then r2 else OnEnableLeaf(t, r2.0, a)
  }

  /** The body of `createProxyConfigurations` once the two names are derived: nothing happens
      when a configuration named `mod` exists; otherwise the mod proxy is created and wired,
      then the regular proxy, and any failure stops the call with the state reached so far. */
  function CreateProxies(t: MDGType, s: MdgState, ref: Ref, defer: bool, mod: string, reg: string)
    : (r: (MdgState, Outcome))
    requires Valid(s) && mod != reg
    ensures Valid(r.0) && Grows(s, r.0)
    ensures mod in r.0.container.configs
    ensures mod in s.container.configs ==> r == (s, Pass)
    ensures mod !in s.container.configs ==>
              r.0.container.order == s.container.order + [mod]
              || r.0.container.order == s.container.order + [mod, reg]
    ensures mod !in s.container.configs && r.1.Pass? ==> r.0.container.order == s.container.order + [mod, reg]
    ensures mod !in s.container.configs && reg in s.container.configs ==> r.1 != Pass
  {
    if mod in s.container.configs then (s, Pass)
    else
      var r1 := CreateWiredProxy(t, s, ref, defer, mod, ExtendRemap(mod));
      if r1.1.Fail? then r1
      else
        var r2 := CreateWiredProxy(t, r1.0, ref, defer, reg, ExtendNamed(AdditionalRuntimeClasspath, reg));
        assert s.container.order + [mod] + [reg] == s.container.order + [mod, reg];
        r2
  }

  /** `createProxyConfigurations(target, configuration, defer)`: the mod proxy is the backend
      name prefixed with "modstitchMod", the regular proxy the name prefixed with "modstitch". */
  function CreateProxy(t: MDGType, s: MdgState, ref: Ref, defer: bool): (r: (MdgState, Outcome))
    requires Valid(s)
    ensures Valid(r.0) && Grows(s, r.0)
    ensures ModProxyName(ref.name) in r.0.container.configs
    ensures ModProxyName(ref.name) in s.container.configs ==> r == (s, Pass)
    ensures ModProxyName(ref.name) !in s.container.configs && r.1.Pass? ==>
              r.0.container.order == s.container.order + [ModProxyName(ref.name), RegularProxyName(ref.name)]
  {
    ProxyRolesDiffer(ref.name);
    CreateProxies(t, s, ref, defer, ModProxyName(ref.name), RegularProxyName(ref.name))
  }

  /** An enable-time leaf adds no configuration. */
  lemma LeafKeepsNames(t: MDGType, s: MdgState, a: Action)
    requires Valid(s) && Leaf(a) && Targets(a, s.container)
    ensures OnEnableLeaf(t, s, a).0.container.configs.Keys == s.container.configs.Keys
  {
  }

  /** An immediate proxy block adds its proxy and nothing else, and on success the backend
      extends it. */
  lemma ImmediateBlockWires(t: MDGType, s: MdgState, ref: Ref, name: string, a: Action)
    requires Valid(s) && name !in s.container.configs
    requires a == ExtendRemap(name) || a == ExtendNamed(AdditionalRuntimeClasspath, name)
    ensures var r := CreateWiredProxy(t, s, ref, false, name, a);
            && r.0.container.configs.Keys == s.container.configs.Keys + {name}
            && (r.1.Pass? ==> Extends(r.0.container, ref.name, name))
  {
    var s0 := s.(container := CreateIn(s.container, name, true).0);
    var w := Wire(t, s0, ref, false, name);
    if w.1.Pass? {
      LeafKeepsNames(t, w.0, a);
    }
  }

  /** An edge, once added, stays. */
  lemma EdgeKept(s: MdgState, s': MdgState, child: string, parent: string)
    requires Grows(s, s') && Extends(s.container, child, parent)
    ensures Extends(s'.container, child, parent)
  {
  }

  /** An immediate request whose mod proxy is new adds exactly the two proxies, and on success
      the backend extends both. */
  lemma ImmediateRequestWires(t: MDGType, s: MdgState, ref: Ref, mod: string, reg: string)
    requires Valid(s) && mod != reg
    ensures var r := CreateProxies(t, s, ref, false, mod, reg);
            mod !in s.container.configs && r.1.Pass? ==>
              && r.0.container.configs.Keys == s.container.configs.Keys + {mod, reg}
              && Extends(r.0.container, ref.name, mod) && Extends(r.0.container, ref.name, reg)
  {
    if mod !in s.container.configs {
      var a1, a2 := ExtendRemap(mod), ExtendNamed(AdditionalRuntimeClasspath, reg);
      ImmediateBlockWires(t, s, ref, mod, a1);
      var r1 := CreateWiredProxy(t, s, ref, false, mod, a1);
      if r1.1.Pass? {
        var r2 := CreateWiredProxy(t, r1.0, ref, false, reg, a2);
        assert CreateProxies(t, s, ref, false, mod, reg) == r2;
        if reg !in r1.0.container.configs {
          ImmediateBlockWires(t, r1.0, ref, reg, a2);
          EdgeKept(r1.0, r2.0, ref.name, mod);
        }
      }
    }
  }

  /** Runs one action: it is logged first, then performed. */
  function Run(t: MDGType, s: MdgState, a: Action): (r: (MdgState, Outcome))
    requires Valid(s) && Targets(a, s.container)
    ensures Valid(r.0) && Grows(s, r.0)
    ensures |s.ran| < |r.0.ran| && r.0.ran[|s.ran|] == a
    ensures Leaf(a) ==> r == RunLeaf(t, s, a)
  {
    if Leaf(a) then RunLeaf(t, s, a)
    else CreateProxy(t, s.(ran := s.ran + [a]), Deferred(LocalRuntime), true)
  }

  /** `onEnable` / `onMdgEnable`: `withPlugin(marker)` runs the action now when the marker is
      applied and queues it otherwise. */
  function OnEnable(t: MDGType, s: MdgState, a: Action): (r: (MdgState, Outcome))
    requires Valid(s) && Targets(a, s.container)
    ensures Valid(r.0) && Grows(s, r.0)
    ensures !Enabled(s) ==> r == (s.(pending := s.pending + [a]), Pass)
    ensures Enabled(s) ==> |s.ran| < |r.0.ran| && r.0.ran[|s.ran|] == a
    ensures Leaf(a) ==> r == OnEnableLeaf(t, s, a)
  {
    if Enabled(s) then Run(t, s, a) else (s.(pending := s.pending + [a]), Pass)
  }

  /** Runs queued actions in order; the first failure stops the rest. */
  function FireAll(t: MDGType, s: MdgState, q: seq<Action>): (r: (MdgState, Outcome))
    requires Valid(s) && Enabled(s) && AllTarget(q, s.container)
    ensures Valid(r.0) && Grows(s, r.0)
    decreases |q|
  {
    if q == [] then (s, Pass)
    else
      var r1 := Run(t, s, q[0]);
      if r1.1.Fail? then r1 else FireAll(t, r1.0, q[1..])
  }

  /** `pluginManager.apply(id)`: applying a plugin twice does nothing; applying the marker
      empties the queue and runs what was waiting, in the order it was registered. */
  function ApplyPlugin(t: MDGType, s: MdgState, id: string): (r: (MdgState, Outcome))
    requires Valid(s)
    ensures Valid(r.0)
    ensures r.0.plugins == s.plugins + {id}
    ensures id in s.plugins ==> r == (s, Pass)
    ensures id != EnabledMarker ==> r.0 == s.(plugins := s.plugins + {id}) && r.1 == Pass
  {
    if id in s.plugins then (s, Pass)
    else if id != EnabledMarker then (s.(plugins := s.plugins + {id}), Pass)
    else FireAll(t, s.(plugins := s.plugins + {id}, pending := []), s.pending)
  }

  /** `enable`: does nothing once the marker is applied; on Legacy it creates
      `modstitchMdgRemap` and records it as the remap configuration. */
  function Enable(t: MDGType, s: MdgState): (r: (MdgState, Outcome))
    requires Valid(s)
    ensures Valid(r.0)
    ensures Enabled(s) || t == Regular ==> r == (s, Pass)
    ensures !Enabled(s) && t == Legacy ==>
              (r.1.Pass? <==> MdgRemap !in s.container.configs)
    ensures !Enabled(s) && t == Legacy && r.1.Pass? ==>
              r.0.remap == Some(MdgRemap) && r.0.container == CreateIn(s.container, MdgRemap, true).0
              && r.0.plugins == s.plugins && r.0.pending == s.pending && r.0.ran == s.ran
    ensures !Enabled(s) && t == Legacy && r.1.Fail? ==> r == (s, Fail(AlreadyExists(MdgRemap)))
  {
    if Enabled(s) || t == Regular then (s, Pass)
    else
      var r1 := CreateIn(s.container, MdgRemap, true);
      if r1.1.Fail? then (s, r1.1)
      else (s.(container := r1.0, remap := Some(MdgRemap)), Pass)
  }

  /** The configuration extends both of its proxies. */
  predicate Proxied(c: Container, n: string)
  {
    Extends(c, n, ModProxyName(n)) && Extends(c, n, RegularProxyName(n))
  }

  /** Neither proxy name of the configuration is taken. */
  predicate ProxyNamesFree(c: Container, n: string)
  {
    ModProxyName(n) !in c.configs && RegularProxyName(n) !in c.configs
  }

  /** Each selected configuration is either not proxied yet or already proxied. */
  predicate ReadyToProxy(c: Container, names: seq<string>)
  {
    forall n :: n in names ==> ProxyNamesFree(c, n) || Proxied(c, n)
  }

  /** One immediate request for `n`, ready to be proxied, leaves it proxied and adds no name
      but its two proxies. */
  lemma RequestProxies(t: MDGType, s: MdgState, n: string)
    requires Valid(s) && (ProxyNamesFree(s.container, n) || Proxied(s.container, n))
    ensures var r1 := CreateProxy(t, s, Materialized(n), false);
            r1.1.Pass? ==>
              && Proxied(r1.0.container, n)
              && r1.0.container.configs.Keys <= s.container.configs.Keys + {ModProxyName(n), RegularProxyName(n)}
  {
    if !ProxyNamesFree(s.container, n) {
      assert ModProxyName(n) in s.container.configs[n].extendsFrom;
    } else {
      ProxyRolesDiffer(n);
      ImmediateRequestWires(t, s, Materialized(n), ModProxyName(n), RegularProxyName(n));
    }
  }

  /** Once `names[0]` is proxied by adding at most its two proxies and some edges, the rest
      of a selection whose proxies are apart is still ready. */
  lemma {:induction false} RestStaysReady(c: Container, c1: Container, names: seq<string>)
    requires names != [] && ProxiesApart(names) && ReadyToProxy(c, names)
    requires Proxied(c1, names[0])
    requires c.configs.Keys <= c1.configs.Keys
    requires c1.configs.Keys <= c.configs.Keys + {ModProxyName(names[0]), RegularProxyName(names[0])}
    requires forall n :: n in c.configs ==> c.configs[n].extendsFrom <= c1.configs[n].extendsFrom
    ensures ProxiesApart(names[1..]) && ReadyToProxy(c1, names[1..])
  {
    var n0 := names[0];
    forall m | m in names[1..]
      ensures ProxyNamesFree(c1, m) || Proxied(c1, m)
    {
      assert m in names;
      if m != n0 && ProxyNamesFree(c, m) {
        assert ModProxyName(m) != ModProxyName(n0) && RegularProxyName(m) != RegularProxyName(n0);
        assert RegularProxyName(n0) != ModProxyName(m) && RegularProxyName(m) != ModProxyName(n0);
      }
    }
    forall n, m | n in names[1..] && m in names[1..] && n != m
      ensures ModProxyName(n) != ModProxyName(m) && RegularProxyName(n) != RegularProxyName(m)
      ensures RegularProxyName(n) != ModProxyName(m)
    {
      assert n in names && m in names;
    }
  }

  /** One immediate request for `names[0]` keeps the rest of the selection ready, and leaves
      `names[0]` proxied. */
  lemma {:induction false} ProxyStep(t: MDGType, s: MdgState, names: seq<string>)
    requires Valid(s) && names != []
    ensures var r1 := CreateProxy(t, s, Materialized(names[0]), false);
            r1.1.Pass? && ProxiesApart(names) && ReadyToProxy(s.container, names) ==>
              && Proxied(r1.0.container, names[0])
              && ProxiesApart(names[1..])
              && ReadyToProxy(r1.0.container, names[1..])
  {
    var r1 := CreateProxy(t, s, Materialized(names[0]), false);
    if r1.1.Pass? && ProxiesApart(names) && ReadyToProxy(s.container, names) {
      RequestProxies(t, s, names[0]);
      RestStaysReady(s.container, r1.0.container, names);
    }
  }

  /** The `forEach` of the source-set overload: each name is fetched with `getByName` and
      proxied immediately. */
  function ProxyEach(t: MDGType, s: MdgState, names: seq<string>): (r: (MdgState, Outcome))
    requires Valid(s)
    ensures Valid(r.0) && Grows(s, r.0)
    ensures r.1.Pass? ==> forall n :: n in names ==> n in r.0.container.configs
    ensures r.1.Pass? ==> forall n :: n in names ==> ModProxyName(n) in r.0.container.configs
    ensures r.1.Pass? && ProxiesApart(names) && ReadyToProxy(s.container, names) ==>
              forall n :: n in names ==> Proxied(r.0.container, n)
    decreases |names|
  {
    if names == [] then (s, Pass)
    else
      match Lookup(s.container, names[0])
      case Err(e) => (s, Fail(e))
      case Ok(n) =>
        var r1 := CreateProxy(t, s, Materialized(n), false);
        if r1.1.Fail? then r1
        else
          var r2 := ProxyEach(t, r1.0, names[1..]);
          assert forall m :: m in names ==> m == names[0] || m in names[1..];
          ProxyStep(t, s, names);
          r2
  }

  /** `createProxyConfigurations(target, sourceSet)`: the common selection, then for the main
      source set a deferred proxy of `localRuntime` once enabled. */
  function CreateProxyForSourceSet(t: MDGType, s: MdgState, sourceSet: string): (r: (MdgState, Outcome))
    requires Valid(s)
    ensures Valid(r.0) && Grows(s, r.0)
    ensures r.1.Pass? ==> forall n :: n in ProxiedConfigurations(sourceSet) ==> ModProxyName(n) in r.0.container.configs
    ensures r.1.Pass? && ReadyToProxy(s.container, ProxiedConfigurations(sourceSet)) ==>
              forall n :: n in ProxiedConfigurations(sourceSet) ==> Proxied(r.0.container, n)
  {
    var names := ProxiedConfigurations(sourceSet);
    SelectionProxiesApart(sourceSet);
    var r1 := ProxyEach(t, s, names);
    if r1.1.Fail? || sourceSet != MainSourceSet then r1
    else
      var r2 := OnEnable(t, r1.0, ProxyLocalRuntime);
      ProxiesKept(r1.0, r2.0, names);
      r2
  }

  /** Growing the state keeps every edge, so what was proxied stays proxied. */
  lemma ProxiesKept(s: MdgState, s': MdgState, names: seq<string>)
    requires Grows(s, s')
    ensures forall n :: n in names && ModProxyName(n) in s.container.configs ==> ModProxyName(n) in s'.container.configs
    ensures forall n :: n in names && Proxied(s.container, n) ==> Proxied(s'.container, n)
  {
  }

  /** `configureJiJConfiguration`: once enabled, `jarJar` extends the configuration. */
  function ConfigureJiJ(t: MDGType, s: MdgState, config: string): (r: (MdgState, Outcome))
    requires Valid(s) && config in s.container.configs
    ensures Valid(r.0) && Grows(s, r.0)
    ensures r.0.container.order == s.container.order
  {
    OnEnableLeaf(t, s, ExtendNamed(JarJar, config))
  }

  /** The `modstitchJiJ` step of the common `apply`: a non-transitive configuration handed to
      the JiJ wiring. */
  function CreateJiJ(t: MDGType, s: MdgState): (r: (MdgState, Outcome))
    requires Valid(s)
    ensures Valid(r.0)
    ensures r.1.Pass? ==> JiJ in r.0.container.configs && !r.0.container.configs[JiJ].transitive
    ensures JiJ in s.container.configs ==> r == (s, Fail(AlreadyExists(JiJ)))
  {
    var r1 := CreateIn(s.container, JiJ, false);
    if r1.1.Fail? then (s, r1.1)
    else
      var r2 := ConfigureJiJ(t, s.(container := r1.0), JiJ);
      assert r2.0.container.configs[JiJ] == r1.0.configs[JiJ] by {
        if Enabled(s) {
          assert JiJ != JarJar;
        }
      }
      r2
  }
}
