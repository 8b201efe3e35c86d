/** Configuration names: the camel-case join used for proxy names, Gradle's per-source-set
    configuration names, and the choice of configurations a source set gets proxies for. */
module Names {
  import opened Results

  predicate IsUpper(c: char) { 'A' <= c <= 'Z' }
  predicate IsLower(c: char) { 'a' <= c <= 'z' }

  /** Upper-cases an ASCII letter and leaves every other character alone. */
  function UpperChar(c: char): (u: char)
    ensures IsLower(c) ==> IsUpper(u) && u as int == c as int - 32
    ensures !IsLower(c) ==> u == c
  {
    if IsLower(c) then (c as int - 32) as char else c
  }

  /** The first character upper-cased, the rest unchanged. */
  function Capitalize(s: string): (r: string)
    ensures |r| == |s|
    ensures s != [] ==> r[0] == UpperChar(s[0]) && r[1..] == s[1..]
  {
    if s == [] then [] else [UpperChar(s[0])] + s[1..]
  }

  /** `s.addCamelCasePrefix(prefix)`: the prefix, then `s` with its first letter upper-cased
      (no upper-casing when the prefix is empty). */
  function AddCamelCasePrefix(s: string, prefix: string): (r: string)
    ensures |r| == |prefix| + |s|
    ensures r[..|prefix|] == prefix
    ensures prefix == [] ==> r == s
    ensures prefix != [] && s != [] ==> r[|prefix|] == UpperChar(s[0]) && r[|prefix| + 1..] == s[1..]
  {
    if prefix == [] then s else prefix + Capitalize(s)
  }

  const ModProxyPrefix: string := "modstitchMod"
  const RegularProxyPrefix: string := "modstitch"

  /** Name of the proxy for dependencies that are mods. */
  function ModProxyName(backend: string): string
  {
    AddCamelCasePrefix(backend, ModProxyPrefix)
  }

  /** Name of the proxy for ordinary dependencies. */
  function RegularProxyName(backend: string): string
  {
    AddCamelCasePrefix(backend, RegularProxyPrefix)
  }

  /** The documented example: `compile` is proxied by `modstitchCompile` and
      `modstitchModCompile`; the empty name is proxied by the bare prefixes. */
  lemma ProxyNameExamples()
    ensures RegularProxyName("compile") == "modstitchCompile"
    ensures ModProxyName("compile") == "modstitchModCompile"
    ensures RegularProxyName("") == "modstitch" && ModProxyName("") == "modstitchMod"
  {
    assert Capitalize("compile") == "Compile" by {
      assert UpperChar('c') == 'C';
      assert "compile"[1..] == "ompile";
    }
    assert "modstitch" + "Compile" == "modstitchCompile";
    assert "modstitchMod" + "Compile" == "modstitchModCompile";
  }

  /** The two proxies of one configuration never share a name (their lengths differ by three),
      and neither is named like the configuration itself. */
  lemma ProxyRolesDiffer(backend: string)
    ensures ModProxyName(backend) != RegularProxyName(backend)
    ensures |ModProxyName(backend)| == |RegularProxyName(backend)| + 3
    ensures |RegularProxyName(backend)| == |backend| + 9
    ensures ModProxyName(backend) != backend && RegularProxyName(backend) != backend
  {
  }

  /** A name that does not start with an upper-case letter. Gradle's own configuration names
      are of this kind. */
  predicate LowerCamel(n: string) { n == [] || !IsUpper(n[0]) }

  /** Below a fixed non-empty prefix, lower-camel names are told apart by their joins. */
  lemma {:induction false} CamelCaseJoinInjective(a: string, b: string, prefix: string)
    requires LowerCamel(a) && LowerCamel(b) && prefix != []
    requires AddCamelCasePrefix(a, prefix) == AddCamelCasePrefix(b, prefix)
    ensures a == b
  {
    var ja, jb := AddCamelCasePrefix(a, prefix), AddCamelCasePrefix(b, prefix);
    assert |a| == |b|;
    if a != [] {
      assert ja[|prefix|] == jb[|prefix|];
      assert a[0] == b[0];
      assert a[1..] == ja[|prefix| + 1..] == jb[|prefix| + 1..] == b[1..];
      assert a == [a[0]] + a[1..] && b == [b[0]] + b[1..];
    }
  }

  /** Lower-camel configurations with the same proxy name in either role are the same
      configuration. */
  lemma {:induction false} ProxyNamesInjective(a: string, b: string)
    requires LowerCamel(a) && LowerCamel(b)
    ensures ModProxyName(a) == ModProxyName(b) ==> a == b
    ensures RegularProxyName(a) == RegularProxyName(b) ==> a == b
  {
    if ModProxyName(a) == ModProxyName(b) {
      CamelCaseJoinInjective(a, b, ModProxyPrefix);
    }
    if RegularProxyName(a) == RegularProxyName(b) {
      CamelCaseJoinInjective(a, b, RegularProxyPrefix);
    }
  }

  /** Across configurations the roles can meet: the regular proxy of `modX` (the shape of
      Loom's remap configurations, such as `modImplementation`) carries the name of the mod
      proxy of `x`. */
  lemma {:induction false} CrossRoleClash(x: string)
    ensures RegularProxyName("mod" + Capitalize(x)) == ModProxyName(x)
  {
    var c := Capitalize(x);
    var j := "mod" + c;
    assert Capitalize(j) == "Mod" + c by {
      assert j[0] == 'm' && UpperChar('m') == 'M';
      assert j[1..] == "od" + c;
    }
    assert "modstitch" + ("Mod" + c) == ("modstitch" + "Mod") + c;
    assert "modstitch" + "Mod" == "modstitchMod";
  }

  /** Past its first character, a name shows through its join unchanged. */
  lemma JoinAt(s: string, prefix: string, k: int)
    requires 1 <= k < |s|
    ensures AddCamelCasePrefix(s, prefix)[|prefix| + k] == s[k]
  {
    if prefix != [] {
      assert AddCamelCasePrefix(s, prefix)[|prefix| + 1..][k - 1] == s[1..][k - 1];
    }
  }

  /** Names of different lengths, or that differ at a position past the first, have different
      proxy names in each role. */
  lemma ProxyNamesDiffer(n: string, m: string, k: int)
    requires 1 <= k < |n| && k < |m| && (|n| != |m| || n[k] != m[k])
    ensures ModProxyName(n) != ModProxyName(m)
    ensures RegularProxyName(n) != RegularProxyName(m)
  {
    JoinAt(n, ModProxyPrefix, k);
    JoinAt(m, ModProxyPrefix, k);
    JoinAt(n, RegularProxyPrefix, k);
    JoinAt(m, RegularProxyPrefix, k);
  }

  /** The regular proxy of `n` can carry the name of the mod proxy of `m` only when `n` is
      three characters longer and ends in the same character. */
  lemma CrossRoleNeedsShape(n: string, m: string)
    requires |n| >= 2 && |m| >= 2 && (|n| != |m| + 3 || n[|n| - 1] != m[|m| - 1])
    ensures RegularProxyName(n) != ModProxyName(m)
  {
    JoinAt(n, RegularProxyPrefix, |n| - 1);
    JoinAt(m, ModProxyPrefix, |m| - 1);
  }

  /** No two configurations of a selection share a proxy name, in either role. */
  predicate ProxiesApart(names: seq<string>)
  {
    forall n, m :: n in names && m in names && n != m ==>
      && ModProxyName(n) != ModProxyName(m)
      && RegularProxyName(n) != RegularProxyName(m)
      && RegularProxyName(n) != ModProxyName(m)
  }

  const MainSourceSet: string := "main"
  const LocalRuntime: string := "localRuntime"
  /** The configuration whose dependencies are nested in the mod jar. */
  const JiJ: string := "modstitchJiJ"

  /** Gradle's name for the configuration `base` of a source set: `base` itself for `main`,
      otherwise the source-set name followed by `base` capitalised (`clientImplementation`). */
  function ConfigurationName(sourceSet: string, base: string): string
  {
    if sourceSet == MainSourceSet then base else AddCamelCasePrefix(base, sourceSet)
  }

  /** `mainOnly`: the name, but only for the main source set. */
  function MainOnly(sourceSet: string, name: string): (r: Option<string>)
    ensures r.Some? <==> sourceSet == MainSourceSet
    ensures r.Some? ==> r.value == name
  {
    if sourceSet == MainSourceSet then Some(name) else None
  }

  /** Kotlin's `listOfNotNull`: the present values, in their order. */
  function ListOfNotNull(xs: seq<Option<string>>): (r: seq<string>)
    ensures |r| <= |xs|
    ensures (forall i :: 0 <= i < |xs| ==> xs[i].Some?) ==>
              |r| == |xs| && forall i :: 0 <= i < |xs| ==> r[i] == xs[i].value
    ensures |xs| == 1 ==> r == (if xs[0].Some? then [xs[0].value] else [])
  {
    if xs == [] then []
    else
      var rest := ListOfNotNull(xs[1..]);
      if xs[0].Some? then [xs[0].value] + rest else rest
  }

  /** `listOfNotNull` works entry by entry: the result for a list is the result for its front
      followed by the result for its back, so the present values keep their order. */
  lemma {:induction false} ListOfNotNullAppend(xs: seq<Option<string>>, ys: seq<Option<string>>)
    ensures ListOfNotNull(xs + ys) == ListOfNotNull(xs) + ListOfNotNull(ys)
  {
    if xs == [] {
      assert xs + ys == ys;
    } else {
      assert (xs + ys)[0] == xs[0] && (xs + ys)[1..] == xs[1..] + ys;
      ListOfNotNullAppend(xs[1..], ys);
    }
  }

  /** `listOfNotNull` keeps exactly the present values. */
  lemma {:induction false} ListOfNotNullMembers(xs: seq<Option<string>>, x: string)
    ensures x in ListOfNotNull(xs) <==> Some(x) in xs
  {
    if xs != [] {
      ListOfNotNullMembers(xs[1..], x);
      assert Some(x) in xs <==> Some(x) == xs[0] || Some(x) in xs[1..] by {
        assert xs == [xs[0]] + xs[1..];
      }
    }
  }

  /** The configurations of a source set that get proxies, in the order they are proxied. */
  function ProxiedConfigurations(sourceSet: string): seq<string>
  {
    ListOfNotNull([
      MainOnly(sourceSet, ConfigurationName(sourceSet, "api")),
      Some(ConfigurationName(sourceSet, "implementation")),
      Some(ConfigurationName(sourceSet, "compileOnly")),
      Some(ConfigurationName(sourceSet, "runtimeOnly")),
      MainOnly(sourceSet, ConfigurationName(sourceSet, "compileOnlyApi")),
      MainOnly(sourceSet, LocalRuntime)
    ])
  }

  /** The main source set proxies six configurations, in this order. */
  lemma MainSelection()
    ensures ProxiedConfigurations(MainSourceSet)
         == ["api", "implementation", "compileOnly", "runtimeOnly", "compileOnlyApi", "localRuntime"]
  {
    var m := MainSourceSet;
    var xs := [MainOnly(m, ConfigurationName(m, "api")),
               Some(ConfigurationName(m, "implementation")),
               Some(ConfigurationName(m, "compileOnly")),
               Some(ConfigurationName(m, "runtimeOnly")),
               MainOnly(m, ConfigurationName(m, "compileOnlyApi")),
               MainOnly(m, LocalRuntime)];
    assert forall i :: 0 <= i < |xs| ==> xs[i].Some?;
    var r := ListOfNotNull(xs);
    assert r[0] == "api" && r[1] == "implementation" && r[2] == "compileOnly";
    assert r[3] == "runtimeOnly" && r[4] == "compileOnlyApi" && r[5] == "localRuntime";
  }

  /** Any other source set proxies only its implementation, compileOnly and runtimeOnly. */
  lemma OtherSelection(sourceSet: string)
    requires sourceSet != MainSourceSet
    ensures ProxiedConfigurations(sourceSet)
         == [AddCamelCasePrefix("implementation", sourceSet),
             AddCamelCasePrefix("compileOnly", sourceSet),
             AddCamelCasePrefix("runtimeOnly", sourceSet)]
  {
    var i, c, r := AddCamelCasePrefix("implementation", sourceSet),
                   AddCamelCasePrefix("compileOnly", sourceSet),
                   AddCamelCasePrefix("runtimeOnly", sourceSet);
    var xs := [None, Some(i), Some(c), Some(r), None, None];
    assert xs[1..][1..][1..][1..] == xs[4..];
    var none: seq<Option<string>> := [None];
    assert none[1..] == [];
    assert ListOfNotNull([None, None]) == [] by {
      assert xs[4..][1..] == none;
    }
    assert ListOfNotNull(xs[1..][1..][1..]) == [r];
    assert ListOfNotNull(xs[1..][1..]) == [c, r];
    assert ListOfNotNull(xs[1..]) == [i, c, r];
  }

  /** A selection whose names all tell apart at position `k` or by length, and whose names of
      lengths three apart end differently, keeps its proxies apart. */
  lemma ProxiesApartByShape(names: seq<string>, k: int)
    requires forall a :: 0 <= a < |names| ==> 1 <= k < |names[a]|
    requires forall a, b :: 0 <= a < b < |names| ==> |names[a]| != |names[b]| || names[a][k] != names[b][k]
    requires forall a, b :: 0 <= a < |names| && 0 <= b < |names| && |names[a]| == |names[b]| + 3 ==>
               names[a][|names[a]| - 1] != names[b][|names[b]| - 1]
    ensures ProxiesApart(names)
  {
    forall n, m | n in names && m in names && n != m
      ensures ModProxyName(n) != ModProxyName(m) && RegularProxyName(n) != RegularProxyName(m)
      ensures RegularProxyName(n) != ModProxyName(m)
    {
      var a :| 0 <= a < |names| && names[a] == n;
      var b :| 0 <= b < |names| && names[b] == m;
      assert |n| != |m| || n[k] != m[k] by {
        if b < a {
          assert |names[b]| != |names[a]| || names[b][k] != names[a][k];
        }
      }
      assert |n| == |m| + 3 ==> n[|n| - 1] != m[|m| - 1];
      ProxyNamesDiffer(n, m, k);
      CrossRoleNeedsShape(n, m);
    }
  }

  /** The main source set's six configurations never share a proxy name. */
  lemma MainProxiesApart()
    ensures ProxiesApart(["api", "implementation", "compileOnly", "runtimeOnly", "compileOnlyApi", "localRuntime"])
  {
    var names := ["api", "implementation", "compileOnly", "runtimeOnly", "compileOnlyApi", "localRuntime"];
    ProxiesApartByShape(names, 1);
  }

  /** Another source set's three configurations never share a proxy name: they differ in the
      character after the capitalised one, and only `implementation` is three longer than
      another, ending in `n` where the others end in `y`. */
  lemma OtherProxiesApart(sourceSet: string)
    ensures ProxiesApart([AddCamelCasePrefix("implementation", sourceSet),
                          AddCamelCasePrefix("compileOnly", sourceSet),
                          AddCamelCasePrefix("runtimeOnly", sourceSet)])
  {
    var k := |sourceSet| + 1;
    var i, c, r := AddCamelCasePrefix("implementation", sourceSet),
                   AddCamelCasePrefix("compileOnly", sourceSet),
                   AddCamelCasePrefix("runtimeOnly", sourceSet);
    JoinAt("implementation", sourceSet, 1);
    JoinAt("compileOnly", sourceSet, 1);
    JoinAt("runtimeOnly", sourceSet, 1);
    JoinAt("implementation", sourceSet, 13);
    JoinAt("compileOnly", sourceSet, 10);
    JoinAt("runtimeOnly", sourceSet, 10);
    ProxiesApartByShape([i, c, r], k);
  }

  /** The configurations any source set proxies never share a proxy name. */
  lemma SelectionProxiesApart(sourceSet: string)
    ensures ProxiesApart(ProxiedConfigurations(sourceSet))
  {
    if sourceSet == MainSourceSet {
      MainSelection();
      MainProxiesApart();
    } else {
      OtherSelection(sourceSet);
      OtherProxiesApart(sourceSet);
    }
  }
}
