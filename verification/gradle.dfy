/** The part of a Gradle project the plugin works on: its configuration container. A
    configuration is known by its name; `extendsFrom` edges go from a configuration to the
    configurations whose dependencies it inherits. */
module Gradle {
  import opened Results

  datatype Configuration = Configuration(extendsFrom: set<string>, transitive: bool)

  /** The container as a value: configurations by name, and the order they were created in. */
  datatype Container = Container(configs: map<string, Configuration>, order: seq<string>)

  /** Every edge ends at a registered configuration. */
  ghost predicate WellFormed(c: Container)
  {
    forall n :: n in c.configs ==> c.configs[n].extendsFrom <= c.configs.Keys
  }

  /** The creation log lists every configuration exactly once. */
  ghost predicate Listed(c: Container)
  {
    && (forall i, j :: 0 <= i < j < |c.order| ==> c.order[i] != c.order[j])
    && (forall n :: n in c.configs <==> n in c.order)
  }

  /** Creating and extending keep the creation log exact. */
  lemma {:induction false} OperationsKeepListed(c: Container, name: string, child: string, parent: string, transitive: bool)
    requires WellFormed(c) && Listed(c)
    ensures Listed(CreateIn(c, name, transitive).0)
    ensures child in c.configs && parent in c.configs ==> Listed(ExtendIn(c, child, parent))
  {
    var r := CreateIn(c, name, transitive).0;
    if name !in c.configs {
      assert forall n :: n in r.order <==> n in c.order || n == name;
      assert forall i :: 0 <= i < |c.order| ==> r.order[i] == c.order[i];
    }
  }

  /** `child` extends `parent`. */
  predicate Extends(c: Container, child: string, parent: string)
  {
    child in c.configs && parent in c.configs[child].extendsFrom
  }

  /** `configurations.create(name)`: a new configuration with no edges, or AlreadyExists. */
  function CreateIn(c: Container, name: string, transitive: bool): (r: (Container, Outcome))
    requires WellFormed(c)
    ensures WellFormed(r.0)
    ensures r.1.Pass? <==> name !in c.configs
    ensures r.1.Fail? ==> r.0 == c && r.1 == Fail(AlreadyExists(name))
    ensures r.1.Pass? ==> r.0.order == c.order + [name] && r.0.configs.Keys == c.configs.Keys + {name}
    ensures r.1.Pass? ==> r.0.configs[name] == Configuration({}, transitive)
    ensures forall n :: n in c.configs ==> n in r.0.configs && r.0.configs[n] == c.configs[n]
  {
    if name in c.configs then (c, Fail(AlreadyExists(name)))
    else (Container(c.configs[name := Configuration({}, transitive)], c.order + [name]), Pass)
  }

  /** `child.extendsFrom(parent)`: adds one edge (adding an existing edge changes nothing). */
  function ExtendIn(c: Container, child: string, parent: string): (r: Container)
    requires WellFormed(c) && child in c.configs && parent in c.configs
    ensures WellFormed(r)
    ensures r.order == c.order && r.configs.Keys == c.configs.Keys
    ensures r.configs[child] == c.configs[child].(extendsFrom := c.configs[child].extendsFrom + {parent})
    ensures forall n :: n in c.configs && n != child ==> r.configs[n] == c.configs[n]
  {
    var old_ := c.configs[child];
    c.(configs := c.configs[child := old_.(extendsFrom := old_.extendsFrom + {parent})])
  }

  /** `getByName(name)` / `named(name)`: the configuration, or UnknownConfiguration. */
  function Lookup(c: Container, name: string): (r: Result<string>)
    ensures r.Ok? <==> name in c.configs
    ensures r.Ok? ==> r.value == name
    ensures r.Err? ==> r.error == UnknownConfiguration(name)
  {
    if name in c.configs then Ok(name) else Err(UnknownConfiguration(name))
  }

  /** The configuration container of one project, updated in place. */
  class ConfigurationContainer {
    var configs: map<string, Configuration>
    var order: seq<string>

    function State(): Container
      reads this
    {
      Container(configs, order)
    }

    ghost predicate Valid()
      reads this
    {
      WellFormed(State()) && Listed(State())
    }

    /** A container holding the given configurations, each without edges. */
    constructor (initial: seq<string>)
      requires forall i, j :: 0 <= i < j < |initial| ==> initial[i] != initial[j]
      ensures Valid()
      ensures order == initial
      ensures forall n :: n in configs <==> n in initial
      ensures forall n :: n in configs ==> configs[n] == Configuration({}, true)
    {
      configs := map n | n in initial :: Configuration({}, true);
      order := initial;
    }

    method Create(name: string, transitive: bool) returns (o: Outcome)
      requires Valid()
      modifies this
      ensures Valid()
      ensures (State(), o) == CreateIn(old(State()), name, transitive)
    {
      OperationsKeepListed(State(), name, name, name, transitive);
      if name in configs {
        return Fail(AlreadyExists(name));
      }
      configs := configs[name := Configuration({}, transitive)];
      order := order + [name];
      o := Pass;
    }

    method ExtendsFrom(child: string, parent: string)
      requires Valid() && child in configs && parent in configs
      modifies this
      ensures Valid()
      ensures State() == ExtendIn(old(State()), child, parent)
    {
      OperationsKeepListed(State(), child, child, parent, true);
      var c := configs[child];
      configs := configs[child := c.(extendsFrom := c.extendsFrom + {parent})];
    }

    /** `getByName(name)`; `named(name)` fails in the same way. */
    method GetByName(name: string) returns (r: Result<string>)
      ensures r.Ok? <==> name in configs
      ensures r.Ok? ==> r.value == name
      ensures r == Lookup(State(), name)
    {
      if name in configs {
        r := Ok(name);
      } else {
        r := Err(UnknownConfiguration(name));
      }
    }
  }
}
