/** The Maven repositories each platform registers, and which of them Gradle consults for a
    dependency group once `exclusiveContent` filters apply. */
module Repositories {
  import opened Results
  import opened Platforms

  /** A repository; `exclusiveGroup` is the group an `exclusiveContent` filter ties it to. */
  datatype Repository = Repository(name: string, url: string, exclusiveGroup: Option<string>)

  const MavenCentral := Repository("MavenRepo", "https://repo.maven.apache.org/maven2/", None)
  const ParchmentMC := Repository("ParchmentMC", "https://maven.parchmentmc.org", None)
  const Modrinth := Repository("Modrinth", "https://api.modrinth.com/maven", Some("maven.modrinth"))
  const Cursemaven := Repository("Cursemaven", "https://cursemaven.com", Some("curse.maven"))
  const FabricMC := Repository("FabricMC", "https://maven.fabricmc.net", None)

  /** The repositories every platform adds, in order. */
  function CommonRepositories(): seq<Repository>
  {
    [MavenCentral, ParchmentMC, Modrinth, Cursemaven]
  }

  /** Loom adds FabricMC after the common list; ModDevGradle keeps the common list. */
  function RepositoriesFor(p: Platform): (r: seq<Repository>)
    ensures |r| >= 4 && r[..4] == CommonRepositories()
    ensures IsLoom(p) ==> |r| == 5 && r[4] == FabricMC
    ensures !IsLoom(p) ==> |r| == 4
  {
    if p == Loom then CommonRepositories() + [FabricMC] else CommonRepositories()
  }

  /** The repositories tied to `group`, in order. */
  function ExclusiveFor(repos: seq<Repository>, group: string): seq<Repository>
  {
    if repos == [] then []
    else if repos[0].exclusiveGroup == Some(group) then [repos[0]] + ExclusiveFor(repos[1..], group)
    else ExclusiveFor(repos[1..], group)
  }

  /** The repositories without an exclusive filter, in order. */
  function Open(repos: seq<Repository>): seq<Repository>
  {
    if repos == [] then []
    else if repos[0].exclusiveGroup.None? then [repos[0]] + Open(repos[1..])
    else Open(repos[1..])
  }

  /** Both filters keep exactly the repositories that satisfy them. */
  lemma {:induction false} FilterMembers(repos: seq<Repository>, group: string, x: Repository)
    ensures x in ExclusiveFor(repos, group) <==> x in repos && x.exclusiveGroup == Some(group)
    ensures x in Open(repos) <==> x in repos && x.exclusiveGroup.None?
  {
    if repos != [] {
      FilterMembers(repos[1..], group, x);
      assert x in repos <==> x == repos[0] || x in repos[1..] by {
        assert repos == [repos[0]] + repos[1..];
      }
    }
  }

  /** The repositories consulted for `group`: its exclusive repositories if it has any,
      otherwise every repository without an exclusive filter. */
  function Candidates(repos: seq<Repository>, group: string): (r: seq<Repository>)
    ensures forall x :: x in r ==> x in repos && (x.exclusiveGroup.None? || x.exclusiveGroup == Some(group))
  {
    var exclusive := ExclusiveFor(repos, group);
    var r := if exclusive != [] then exclusive else Open(repos);
    assert forall x :: x in r ==> x in repos && (x.exclusiveGroup.None? || x.exclusiveGroup == Some(group)) by {
      forall x | x in r ensures x in repos && (x.exclusiveGroup.None? || x.exclusiveGroup == Some(group)) {
        FilterMembers(repos, group, x);
      }
    }
    r
  }

  lemma {:induction false} ExclusiveForDistributes(xs: seq<Repository>, ys: seq<Repository>, group: string)
    ensures ExclusiveFor(xs + ys, group) == ExclusiveFor(xs, group) + ExclusiveFor(ys, group)
  {
    if xs == [] {
      assert xs + ys == ys;
    } else {
      var zs := xs + ys;
      assert zs[0] == xs[0] && zs[1..] == xs[1..] + ys;
      ExclusiveForDistributes(xs[1..], ys, group);
    }
  }

  lemma {:induction false} OpenDistributes(xs: seq<Repository>, ys: seq<Repository>)
    ensures Open(xs + ys) == Open(xs) + Open(ys)
  {
    if xs == [] {
      assert xs + ys == ys;
    } else {
      var zs := xs + ys;
      assert zs[0] == xs[0] && zs[1..] == xs[1..] + ys;
      OpenDistributes(xs[1..], ys);
    }
  }

  lemma FiltersOfOne(x: Repository, group: string)
    ensures ExclusiveFor([x], group) == if x.exclusiveGroup == Some(group) then [x] else []
    ensures Open([x]) == if x.exclusiveGroup.None? then [x] else []
  {
    assert [x][1..] == [];
  }

  /** The filters on the common list: Modrinth and Cursemaven are the exclusive ones. */
  lemma {:induction false} CommonFilters(g: string)
    ensures ExclusiveFor(CommonRepositories(), g)
         == (if g == "maven.modrinth" then [Modrinth] else []) + (if g == "curse.maven" then [Cursemaven] else [])
    ensures Open(CommonRepositories()) == [MavenCentral, ParchmentMC]
  {
    assert CommonRepositories() == [MavenCentral] + [ParchmentMC] + [Modrinth] + [Cursemaven];
    ExclusiveForDistributes([MavenCentral] + [ParchmentMC] + [Modrinth], [Cursemaven], g);
    OpenDistributes([MavenCentral] + [ParchmentMC] + [Modrinth], [Cursemaven]);
    ExclusiveForDistributes([MavenCentral] + [ParchmentMC], [Modrinth], g);
    OpenDistributes([MavenCentral] + [ParchmentMC], [Modrinth]);
    ExclusiveForDistributes([MavenCentral], [ParchmentMC], g);
    OpenDistributes([MavenCentral], [ParchmentMC]);
    FiltersOfOne(MavenCentral, g);
    FiltersOfOne(ParchmentMC, g);
    FiltersOfOne(Modrinth, g);
    FiltersOfOne(Cursemaven, g);
  }

  /** Loom's FabricMC joins the open repositories, last. */
  lemma {:induction false} PlatformFilters(p: Platform, g: string)
    ensures ExclusiveFor(RepositoriesFor(p), g)
         == (if g == "maven.modrinth" then [Modrinth] else []) + (if g == "curse.maven" then [Cursemaven] else [])
    ensures Open(RepositoriesFor(p)) == [MavenCentral, ParchmentMC] + (if IsLoom(p) then [FabricMC] else [])
  {
    CommonFilters(g);
    if IsLoom(p) {
      assert RepositoriesFor(p) == CommonRepositories() + [FabricMC];
      ExclusiveForDistributes(CommonRepositories(), [FabricMC], g);
      OpenDistributes(CommonRepositories(), [FabricMC]);
      FiltersOfOne(FabricMC, g);
    } else {
      assert RepositoriesFor(p) == CommonRepositories();
    }
  }

  /** Modrinth and Cursemaven serve only their own group and are the only ones to serve it;
      every other group goes to the open repositories, FabricMC last on Loom. */
  lemma {:induction false} CandidatesPerGroup(p: Platform, group: string)
    ensures Candidates(RepositoriesFor(p), "maven.modrinth") == [Modrinth]
    ensures Candidates(RepositoriesFor(p), "curse.maven") == [Cursemaven]
    ensures group != "maven.modrinth" && group != "curse.maven" ==>
              Candidates(RepositoriesFor(p), group)
              == [MavenCentral, ParchmentMC] + (if IsLoom(p) then [FabricMC] else [])
  {
    assert "maven.modrinth" != "curse.maven";
    PlatformFilters(p, "maven.modrinth");
    PlatformFilters(p, "curse.maven");
    PlatformFilters(p, group);
  }
}
