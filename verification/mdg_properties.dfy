/** What the ModDevGradle wiring guarantees: the guard against a second proxy request, the
    exact effect of immediate and deferred wiring, the order in which the enabled marker runs
    what waited for it, and the Legacy remap configuration. */
module MdgProperties {
  import opened Results
  import opened Names
  import opened Platforms
  import opened Gradle
  import opened MdgModel

  const Fresh := Configuration({}, true)

  /** The configuration `x` with more parents. */
  function Plus(c: Container, x: string, parents: set<string>): Configuration
    requires x in c.configs
  {
    c.configs[x].(extendsFrom := c.configs[x].extendsFrom + parents)
  }

  /** A second request for the same configuration changes nothing, whatever its `defer`. */
  lemma SecondProxyRequestIsNoOp(t: MDGType, s: MdgState, ref: Ref, ref': Ref, defer: bool, defer': bool)
    requires Valid(s) && ref'.name == ref.name
    ensures var r := CreateProxy(t, s, ref, defer);
            CreateProxy(t, r.0, ref', defer') == (r.0, Pass)
  {
  }

  /** One deferred proxy block before the marker is applied: the proxy is created and both of
      its actions are queued. */
  lemma QueuedProxy(t: MDGType, s: MdgState, ref: Ref, name: string, a: Action)
    requires Valid(s) && !Enabled(s) && name !in s.container.configs
    requires a == ExtendRemap(name) || a == ExtendNamed(AdditionalRuntimeClasspath, name)
    ensures CreateWiredProxy(t, s, ref, true, name, a)
            == (s.(container := Container(s.container.configs[name := Fresh], s.container.order + [name]),
                   pending := s.pending + [ExtendBackend(ref, name), a]), Pass)
  {
    var s0 := s.(container := CreateIn(s.container, name, true).0);
    var s1 := s0.(pending := s.pending + [ExtendBackend(ref, name)]);
    assert Wire(t, s0, ref, true, name) == (s1, Pass);
    assert OnEnableLeaf(t, s1, a) == (s1.(pending := s1.pending + [a]), Pass);
    assert s1.pending + [a] == s.pending + [ExtendBackend(ref, name), a];
  }

  /** One immediate proxy block before the marker is applied: the proxy is created, the
      backend extends it, and its enable-time action is queued. */
  lemma WiredProxy(t: MDGType, s: MdgState, ref: Ref, name: string, a: Action)
    requires Valid(s) && !Enabled(s) && name !in s.container.configs && ref.name in s.container.configs
    requires a == ExtendRemap(name) || a == ExtendNamed(AdditionalRuntimeClasspath, name)
    ensures CreateWiredProxy(t, s, ref, false, name, a)
            == (s.(container := Container(s.container.configs[name := Fresh][ref.name := Plus(s.container, ref.name, {name})],
                                          s.container.order + [name]),
                   pending := s.pending + [a]), Pass)
  {
  }

  /** Before the marker is applied a deferred request only creates the two proxies and queues
      four actions; the backend is not looked up, so it need not exist yet. */
  lemma {:induction false} DeferredProxies(t: MDGType, s: MdgState, ref: Ref, mod: string, reg: string)
    requires Valid(s) && !Enabled(s) && mod != reg
    requires mod !in s.container.configs && reg !in s.container.configs
    ensures var r := CreateProxies(t, s, ref, true, mod, reg);
            && r.1 == Pass
            && r.0.container == Container(s.container.configs[mod := Fresh][reg := Fresh], s.container.order + [mod, reg])
            && r.0.pending == s.pending + [ExtendBackend(ref, mod), ExtendRemap(mod),
                                           ExtendBackend(ref, reg), ExtendNamed(AdditionalRuntimeClasspath, reg)]
            && r.0.ran == s.ran && r.0.plugins == s.plugins && r.0.remap == s.remap
  {
    QueuedProxy(t, s, ref, mod, ExtendRemap(mod));
    var r1 := CreateWiredProxy(t, s, ref, true, mod, ExtendRemap(mod));
    QueuedProxy(t, r1.0, ref, reg, ExtendNamed(AdditionalRuntimeClasspath, reg));
    AppendTwo(s.container.order, mod, reg);
    AppendPairs(s.pending, ExtendBackend(ref, mod), ExtendRemap(mod),
                ExtendBackend(ref, reg), ExtendNamed(AdditionalRuntimeClasspath, reg));
  }

  /** Before the marker is applied an immediate request makes the backend extend both
      proxies at once; only the enable-time wiring is queued. */
  lemma {:induction false} ImmediateProxies(t: MDGType, s: MdgState, ref: Ref, mod: string, reg: string)
    requires Valid(s) && !Enabled(s) && mod != reg && ref.name != mod && ref.name != reg
    requires mod !in s.container.configs && reg !in s.container.configs
    requires ref.name in s.container.configs
    ensures var r := CreateProxies(t, s, ref, false, mod, reg);
            && r.1 == Pass
            && r.0.container.configs
               == s.container.configs[ref.name := Plus(s.container, ref.name, {mod, reg})][mod := Fresh][reg := Fresh]
            && r.0.container.order == s.container.order + [mod, reg]
            && r.0.pending == s.pending + [ExtendRemap(mod), ExtendNamed(AdditionalRuntimeClasspath, reg)]
            && r.0.ran == s.ran
  {
    WiredProxy(t, s, ref, mod, ExtendRemap(mod));
    var r1 := CreateWiredProxy(t, s, ref, false, mod, ExtendRemap(mod));
    WiredProxy(t, r1.0, ref, reg, ExtendNamed(AdditionalRuntimeClasspath, reg));
    assert CreateProxies(t, s, ref, false, mod, reg)
        == CreateWiredProxy(t, r1.0, ref, false, reg, ExtendNamed(AdditionalRuntimeClasspath, reg));
    AppendTwo(s.container.order, mod, reg);
    AppendTwo(s.pending, ExtendRemap(mod), ExtendNamed(AdditionalRuntimeClasspath, reg));
    TwoEdges(s.container.configs, ref.name, mod, reg);
  }

  /** Two proxies created in turn, each followed by an edge from `b`. */
  lemma TwoEdges(m: map<string, Configuration>, b: string, mod: string, reg: string)
    requires b in m && b != mod && b != reg && mod != reg
    ensures var m1 := m[mod := Fresh][b := m[b].(extendsFrom := m[b].extendsFrom + {mod})];
            m1[reg := Fresh][b := m1[b].(extendsFrom := m1[b].extendsFrom + {reg})]
            == m[b := m[b].(extendsFrom := m[b].extendsFrom + {mod, reg})][mod := Fresh][reg := Fresh]
  {
    var m1 := m[mod := Fresh][b := m[b].(extendsFrom := m[b].extendsFrom + {mod})];
    assert m1[b].extendsFrom + {reg} == m[b].extendsFrom + {mod, reg};
  }

  /** An immediate request for a missing backend fails once the mod proxy exists: the mod
      proxy stays, without edges, and nothing else happens. */
  lemma {:induction false} ImmediateProxiesOfMissingBackend(t: MDGType, s: MdgState, ref: Ref, mod: string, reg: string)
    requires Valid(s) && mod != reg && ref.name != mod
    requires mod !in s.container.configs && ref.name !in s.container.configs
    ensures CreateProxies(t, s, ref, false, mod, reg)
            == (s.(container := Container(s.container.configs[mod := Fresh], s.container.order + [mod])),
                Fail(UnknownConfiguration(ref.name)))
  {
  }

  /** Applying the marker runs a queue of build-script actions in registration order. */
  lemma {:induction false} FireRunsScriptsInOrder(t: MDGType, s: MdgState, q: seq<Action>)
    requires Valid(s) && Enabled(s)
    requires forall i :: 0 <= i < |q| ==> q[i].Script?
    ensures FireAll(t, s, q) == (s.(ran := s.ran + q), Pass)
    decreases |q|
  {
    if q != [] {
      var s1 := s.(ran := s.ran + [q[0]]);
      assert Run(t, s, q[0]) == (s1, Pass);
      assert FireAll(t, s, q) == FireAll(t, s1, q[1..]);
      FireRunsScriptsInOrder(t, s1, q[1..]);
      assert s1.ran + q[1..] == s.ran + q;
    } else {
      assert s.ran + q == s.ran;
    }
  }

  /** One immediate proxy block once the marker is applied: the backend extends the proxy,
      then its enable-time action runs at once. */
  lemma EnabledWiredProxy(t: MDGType, s: MdgState, ref: Ref, name: string, a: Action)
    requires Valid(s) && Enabled(s) && name !in s.container.configs && ref.name in s.container.configs
    requires a == ExtendRemap(name) || a == ExtendNamed(AdditionalRuntimeClasspath, name)
    requires AdditionalRuntimeClasspath in s.container.configs
    requires t == Legacy ==> s.remap.Some?
    ensures var r := CreateWiredProxy(t, s, ref, false, name, a);
            && r.1 == Pass && r.0.ran == s.ran + [a] && r.0.pending == s.pending
            && r.0.container.configs.Keys == s.container.configs.Keys + {name}
            && Extends(r.0.container, ref.name, name)
            && (a.ExtendNamed? ==> Extends(r.0.container, AdditionalRuntimeClasspath, name))
            && (a.ExtendRemap? && t == Legacy ==> Extends(r.0.container, s.remap.value, name))
            && (a.ExtendRemap? && t == Regular ==> forall n :: Extends(r.0.container, n, name) ==> n == ref.name)
            && (forall n, p :: Extends(r.0.container, n, p) ==> Extends(s.container, n, p) || p == name)
  {
    var s0 := s.(container := CreateIn(s.container, name, true).0);
    var s1 := s0.(container := ExtendIn(s0.container, ref.name, name));
    assert Wire(t, s0, ref, false, name) == (s1, Pass);
    CreateAndExtendEdges(s.container, ref.name, name);
    LeafAddsItsEdge(t, s1, a);
    LeafEdgesEndAt(t, s1, a, name);
    assert CreateWiredProxy(t, s, ref, false, name, a) == OnEnableLeaf(t, s1, a);
  }

  /** Creating a proxy and having the backend extend it adds that one edge. */
  lemma CreateAndExtendEdges(c: Container, b: string, name: string)
    requires WellFormed(c) && name !in c.configs && b in c.configs
    ensures var c1 := ExtendIn(CreateIn(c, name, true).0, b, name);
            && Extends(c1, b, name)
            && (forall n, p :: Extends(c1, n, p) ==> Extends(c, n, p) || p == name)
            && (forall n :: Extends(c1, n, name) ==> n == b)
  {
    var c1 := ExtendIn(CreateIn(c, name, true).0, b, name);
    forall n, p | Extends(c1, n, p)
      ensures Extends(c, n, p) || p == name
    {
      if n != b && n != name {
        assert c1.configs[n] == c.configs[n];
      }
    }
  }

  /** The enable-time action of a proxy block adds edges to that proxy only. */
  lemma LeafEdgesEndAt(t: MDGType, s: MdgState, a: Action, name: string)
    requires Valid(s) && name in s.container.configs
    requires a == ExtendRemap(name) || a == ExtendNamed(AdditionalRuntimeClasspath, name)
    ensures var r := OnEnableLeaf(t, s, a);
            forall n, p :: Extends(r.0.container, n, p) ==> Extends(s.container, n, p) || p == name
  {
    var r := OnEnableLeaf(t, s, a);
    forall n, p | Extends(r.0.container, n, p)
      ensures Extends(s.container, n, p) || p == name
    {
      if r.0.container != s.container {
        var child := if a.ExtendRemap? then s.remap.value else AdditionalRuntimeClasspath;
        assert r.0.container == ExtendIn(s.container, child, name);
        if n != child {
          assert r.0.container.configs[n] == s.container.configs[n];
        }
      }
    }
  }


  /** Once the marker is applied an immediate request wires everything at once: the backend
      extends both proxies, `additionalRuntimeClasspath` extends the regular proxy and, on
      Legacy, the remap configuration extends the mod proxy. */
  lemma {:induction false} EnabledProxies(t: MDGType, s: MdgState, ref: Ref, mod: string, reg: string)
    requires Valid(s) && Enabled(s) && mod != reg
    requires mod !in s.container.configs && reg !in s.container.configs
    requires ref.name in s.container.configs && AdditionalRuntimeClasspath in s.container.configs
    requires t == Legacy ==> s.remap.Some?
    ensures var r := CreateProxies(t, s, ref, false, mod, reg);
            && r.1 == Pass && r.0.pending == []
            && r.0.container.order == s.container.order + [mod, reg]
            && r.0.ran == s.ran + [ExtendRemap(mod), ExtendNamed(AdditionalRuntimeClasspath, reg)]
            && Extends(r.0.container, ref.name, mod) && Extends(r.0.container, ref.name, reg)
            && Extends(r.0.container, AdditionalRuntimeClasspath, reg)
            && (t == Legacy ==> Extends(r.0.container, s.remap.value, mod))
            && (t == Regular ==> forall n :: Extends(r.0.container, n, mod) ==> n == ref.name)
  {
    var a1, a2 := ExtendRemap(mod), ExtendNamed(AdditionalRuntimeClasspath, reg);
    EnabledWiredProxy(t, s, ref, mod, a1);
    var r1 := CreateWiredProxy(t, s, ref, false, mod, a1);
    EnabledWiredProxy(t, r1.0, ref, reg, a2);
    var r2 := CreateWiredProxy(t, r1.0, ref, false, reg, a2);
    assert CreateProxies(t, s, ref, false, mod, reg) == r2;
    AppendTwo(s.container.order, mod, reg);
    AppendTwo(s.ran, a1, a2);
    EdgesPersist(r1.0, r2.0, ref.name, mod);
    if t == Legacy {
      EdgesPersist(r1.0, r2.0, s.remap.value, mod);
    }
  }

  lemma AppendTwo<T>(xs: seq<T>, a: T, b: T)
    ensures xs + [a] + [b] == xs + [a, b]
  {
  }

  lemma Nest4<T>(xs: seq<T>, a: T, b: T, c: T, d: T)
    requires xs == []
    ensures xs + [a, b, c, d] == [a] + ([b] + ([c] + [d]))
  {
  }

  lemma AppendPairs<T>(xs: seq<T>, a: T, b: T, c: T, d: T)
    ensures xs + [a, b] + [c, d] == xs + [a, b, c, d]
  {
  }

  /** An edge, once added, is never removed. */
  lemma EdgesPersist(s: MdgState, s': MdgState, child: string, parent: string)
    requires Grows(s, s') && Extends(s.container, child, parent)
    ensures Extends(s'.container, child, parent)
  {
  }

  /** On Legacy the enable-time wiring reads the remap configuration: once the marker is
      applied without `enable` having set it, the first proxy request fails after creating
      and wiring the mod proxy, and the regular proxy is never created. */
  lemma {:induction false} LegacyProxyNeedsRemap(s: MdgState, ref: Ref, mod: string, reg: string)
    requires Valid(s) && Enabled(s) && s.remap.None? && mod != reg
    requires mod !in s.container.configs && ref.name in s.container.configs
    ensures var r := CreateProxies(Legacy, s, ref, false, mod, reg);
            && r.1 == Fail(Uninitialized("remapConfiguration"))
            && r.0.container.order == s.container.order + [mod]
            && Extends(r.0.container, ref.name, mod)
            && r.0.ran == s.ran + [ExtendRemap(mod)]
  {
    var s0 := s.(container := CreateIn(s.container, mod, true).0);
    var s1 := s0.(container := ExtendIn(s0.container, ref.name, mod));
    assert Wire(Legacy, s0, ref, false, mod) == (s1, Pass);
    assert OnEnableLeaf(Legacy, s1, ExtendRemap(mod))
        == (s1.(ran := s.ran + [ExtendRemap(mod)]), Fail(Uninitialized("remapConfiguration")));
  }

  /** The gate: an action registered before the marker waits for it, applying the marker runs
      it, and an action registered afterwards runs at once, so both run in registration order. */
  lemma {:induction false} GateKeepsRegistrationOrder(t: MDGType, s: MdgState, x: nat, y: nat)
    requires Valid(s) && !Enabled(s) && s.pending == []
    ensures var r1 := OnEnable(t, s, Script(x));
            var r2 := ApplyPlugin(t, r1.0, EnabledMarker);
            var r3 := OnEnable(t, r2.0, Script(y));
            && r1.0.ran == s.ran && r1.0.pending == [Script(x)]
            && r2.1 == Pass && r2.0.ran == s.ran + [Script(x)] && r2.0.pending == []
            && r3.1 == Pass && r3.0.ran == s.ran + [Script(x), Script(y)]
  {
    var s1 := s.(pending := [Script(x)]);
    assert s.pending + [Script(x)] == [Script(x)];
    assert OnEnable(t, s, Script(x)) == (s1, Pass);
    var s2 := s.(plugins := s.plugins + {EnabledMarker});
    FireRunsScriptsInOrder(t, s2, [Script(x)]);
    assert ApplyPlugin(t, s1, EnabledMarker) == (s2.(ran := s.ran + [Script(x)]), Pass);
    assert s.ran + [Script(x)] + [Script(y)] == s.ran + [Script(x), Script(y)];
  }

  /** A leaf action succeeds when what it reads exists, and then adds its edge. */
  lemma LeafAddsItsEdge(t: MDGType, s: MdgState, a: Action)
    requires Valid(s) && Leaf(a) && Targets(a, s.container)
    requires a.ExtendBackend? ==> a.backend.name in s.container.configs
    requires a.ExtendRemap? && t == Legacy ==> s.remap.Some?
    requires a.ExtendNamed? ==> a.child in s.container.configs
    ensures var r := RunLeaf(t, s, a);
            && r.1 == Pass
            && (a.ExtendBackend? ==> Extends(r.0.container, a.backend.name, a.proxy))
            && (a.ExtendRemap? && t == Legacy ==> Extends(r.0.container, s.remap.value, a.proxy))
            && (a.ExtendRemap? && t == Regular ==> r.0.container == s.container)
            && (a.ExtendNamed? ==> Extends(r.0.container, a.child, a.parent))
  {
  }

  /** Applying the marker runs the first queued action, then the rest. */
  lemma FireStep(t: MDGType, s: MdgState, q: seq<Action>)
    requires Valid(s) && Enabled(s) && AllTarget(q, s.container)
    requires q != [] && Leaf(q[0]) && RunLeaf(t, s, q[0]).1 == Pass
    ensures AllTarget(q[1..], RunLeaf(t, s, q[0]).0.container)
    ensures FireAll(t, s, q) == FireAll(t, RunLeaf(t, s, q[0]).0, q[1..])
  {
    var s1 := RunLeaf(t, s, q[0]).0;
    forall i | 0 <= i < |q[1..]|
      ensures Targets(q[1..][i], s1.container)
    {
      assert q[1..][i] == q[i + 1] && Targets(q[i + 1], s.container);
    }
  }

  lemma Cons<T>(a: T, rest: seq<T>)
    ensures ([a] + rest)[0] == a && ([a] + rest)[1..] == rest
  {
  }

  /** Applying the marker to the four queued actions of one deferred request, once the
      backend exists: each runs and adds its edge. */
  lemma {:induction false} MarkerWiresDeferredProxies(t: MDGType, x0: MdgState, b: string, mod: string, reg: string)
    requires Valid(x0) && Enabled(x0)
    requires b in x0.container.configs && mod in x0.container.configs && reg in x0.container.configs
    requires AdditionalRuntimeClasspath in x0.container.configs
    requires t == Legacy ==> x0.remap.Some?
    ensures var q := [ExtendBackend(Deferred(b), mod)] + ([ExtendRemap(mod)]
                     + ([ExtendBackend(Deferred(b), reg)] + [ExtendNamed(AdditionalRuntimeClasspath, reg)]));
            AllTarget(q, x0.container) &&
            var r := FireAll(t, x0, q);
            && r.1 == Pass && r.0.pending == []
            && Extends(r.0.container, b, mod) && Extends(r.0.container, b, reg)
            && Extends(r.0.container, AdditionalRuntimeClasspath, reg)
            && (t == Legacy ==> Extends(r.0.container, x0.remap.value, mod))
  {
    var a1, a2 := ExtendBackend(Deferred(b), mod), ExtendRemap(mod);
    var a3, a4 := ExtendBackend(Deferred(b), reg), ExtendNamed(AdditionalRuntimeClasspath, reg);
    var q3 := [a4];
    var q2 := [a3] + q3;
    var q1 := [a2] + q2;
    var q := [a1] + q1;
    Cons(a1, q1);
    Cons(a2, q2);
    Cons(a3, q3);
    Cons(a4, []);
    assert [a4] == [a4] + [];
    assert AllTarget(q, x0.container);

    LeafAddsItsEdge(t, x0, a1);
    FireStep(t, x0, q);
    var x1 := RunLeaf(t, x0, a1).0;
    LeafAddsItsEdge(t, x1, a2);
    FireStep(t, x1, q1);
    var x2 := RunLeaf(t, x1, a2).0;
    LeafAddsItsEdge(t, x2, a3);
    FireStep(t, x2, q2);
    var x3 := RunLeaf(t, x2, a3).0;
    LeafAddsItsEdge(t, x3, a4);
    FireStep(t, x3, q3);
    var x4 := RunLeaf(t, x3, a4).0;

    assert FireAll(t, x1, q1) == (x4, Pass);
    EdgesPersist(x1, x4, b, mod);
    if t == Legacy {
      EdgesPersist(x2, x4, x0.remap.value, mod);
    }
    EdgesPersist(x3, x4, b, reg);
  }

  /** The point of deferring: a proxy request may name a backend that does not exist yet. Once
      the backend is created and the marker applied, the backend extends both proxies,
      `additionalRuntimeClasspath` extends the regular proxy and, on Legacy, the remap
      configuration extends the mod proxy. */
  lemma {:induction false} DeferredWiringWaitsForBackend(t: MDGType, s: MdgState, b: string, mod: string, reg: string)
    requires Valid(s) && !Enabled(s) && s.pending == [] && mod != reg
    requires mod !in s.container.configs && reg !in s.container.configs && b !in s.container.configs
    requires b != mod && b != reg
    requires AdditionalRuntimeClasspath in s.container.configs
    requires t == Legacy ==> s.remap.Some?
    ensures var r1 := CreateProxies(t, s, Deferred(b), true, mod, reg);
            var s2 := r1.0.(container := CreateIn(r1.0.container, b, true).0);
            var r3 := ApplyPlugin(t, s2, EnabledMarker);
            && r1.1 == Pass && r3.1 == Pass && r3.0.pending == []
            && Extends(r3.0.container, b, mod) && Extends(r3.0.container, b, reg)
            && Extends(r3.0.container, AdditionalRuntimeClasspath, reg)
            && (t == Legacy ==> Extends(r3.0.container, s.remap.value, mod))
  {
    DeferredProxies(t, s, Deferred(b), mod, reg);
    var r1 := CreateProxies(t, s, Deferred(b), true, mod, reg);
    BackendCreatedLater(r1.0, b);
    var s2 := r1.0.(container := CreateIn(r1.0.container, b, true).0);
    var x0 := s2.(plugins := s2.plugins + {EnabledMarker}, pending := []);
    assert Valid(x0) && Enabled(x0);
    var a1, a2 := ExtendBackend(Deferred(b), mod), ExtendRemap(mod);
    var a3, a4 := ExtendBackend(Deferred(b), reg), ExtendNamed(AdditionalRuntimeClasspath, reg);
    var q := [a1] + ([a2] + ([a3] + [a4]));
    Nest4(s.pending, a1, a2, a3, a4);
    assert s2.pending == q;
    assert ApplyPlugin(t, s2, EnabledMarker) == FireAll(t, x0, q);
    MarkerWiresDeferredProxies(t, x0, b, mod, reg);
  }

  /** Creating the backend after the request keeps the state valid and the queue pointing at
      existing configurations. */
  lemma BackendCreatedLater(s: MdgState, b: string)
    requires Valid(s) && b !in s.container.configs
    ensures var s2 := s.(container := CreateIn(s.container, b, true).0);
            Valid(s2) && s2.container.configs.Keys == s.container.configs.Keys + {b}
  {
    var s2 := s.(container := CreateIn(s.container, b, true).0);
    forall i | 0 <= i < |s2.pending|
      ensures Targets(s2.pending[i], s2.container)
    {
      assert Targets(s.pending[i], s.container);
    }
  }

  /** With the names derived from the backend: a deferred request before the marker creates
      `modstitchModX` then `modstitchX` and queues their wiring. */
  lemma DeferredRequestQueuesWiring(t: MDGType, s: MdgState, ref: Ref)
    requires Valid(s) && !Enabled(s)
    requires ModProxyName(ref.name) !in s.container.configs && RegularProxyName(ref.name) !in s.container.configs
    ensures var mod, reg := ModProxyName(ref.name), RegularProxyName(ref.name);
            var r := CreateProxy(t, s, ref, true);
            && r.1 == Pass
            && r.0.container.order == s.container.order + [mod, reg]
            && r.0.pending == s.pending + [ExtendBackend(ref, mod), ExtendRemap(mod),
                                           ExtendBackend(ref, reg), ExtendNamed(AdditionalRuntimeClasspath, reg)]
  {
    ProxyRolesDiffer(ref.name);
    DeferredProxies(t, s, ref, ModProxyName(ref.name), RegularProxyName(ref.name));
  }

  /** `modstitchJiJ` before the marker: created non-transitive, its `jarJar` edge queued. */
  lemma JiJWaitsForMarker(t: MDGType, s: MdgState)
    requires Valid(s) && !Enabled(s) && JiJ !in s.container.configs
    ensures CreateJiJ(t, s)
            == (s.(container := Container(s.container.configs[JiJ := Configuration({}, false)], s.container.order + [JiJ]),
                   pending := s.pending + [ExtendNamed(JarJar, JiJ)]), Pass)
  {
  }

  /** `modstitchJiJ` once the marker is applied: `jarJar` extends it at once, or the call fails
      when there is no `jarJar`. */
  lemma JiJWiredWhenEnabled(t: MDGType, s: MdgState)
    requires Valid(s) && Enabled(s) && JiJ !in s.container.configs
    ensures JarJar in s.container.configs ==>
              CreateJiJ(t, s).1 == Pass && Extends(CreateJiJ(t, s).0.container, JarJar, JiJ)
    ensures JarJar !in s.container.configs ==> CreateJiJ(t, s).1 == Fail(UnknownConfiguration(JarJar))
  {
    assert JiJ != JarJar;
  }

  /** A source set whose first selected configuration is missing fails on it, and nothing
      changes. */
  lemma {:induction false} MissingConfigurationFails(t: MDGType, s: MdgState, names: seq<string>)
    requires Valid(s) && names != [] && names[0] !in s.container.configs
    ensures ProxyEach(t, s, names) == (s, Fail(UnknownConfiguration(names[0])))
  {
  }

  /** Only the main source set registers the deferred `localRuntime` proxy, after the others. */
  lemma {:induction false} OnlyMainProxiesLocalRuntime(t: MDGType, s: MdgState, sourceSet: string)
    requires Valid(s) && !Enabled(s)
    ensures var r1 := ProxyEach(t, s, ProxiedConfigurations(sourceSet));
            CreateProxyForSourceSet(t, s, sourceSet)
            == if r1.1.Pass? && sourceSet == MainSourceSet
               then (r1.0.(pending := r1.0.pending + [ProxyLocalRuntime]), Pass)
               else r1
  {
  }
}
