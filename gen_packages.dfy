/** The population step of the Arch generator: one `PkgBuild` is filled from what
    the distribution's collaborators report about a package (its dependency lists
    by kind, the distribution's package names, the source archive and, when the
    fetch succeeds, the package metadata), then flagged for patches and Python 3. */
module GenPackages {
  import opened PkgBuildModel

  /** Packages known not to support Python 3. */
  const NoPython3: seq<string> := ["tf"]

  /** The distributor and license text handed to the renderer (which ignores them). */
  const Org: string := "Open Source Robotics Foundation"
  const OrgLicense: string := "BSD"

  /** The architectures every package is keyworded for, all unstable. */
  const PkgKeywords: seq<string> := ["x86", "amd64", "arm", "arm64"]

  /** The descriptive fields parsed from a package's `package.xml`. */
  datatype PackageMetadata = PackageMetadata(
    upstreamLicense: seq<string>,
    description: string,
    homepage: string,
    buildType: string)

  /** What the collaborators return for one package: the archive URI from the
      rosinstall entry, the distribution's package-name set, the direct dependencies
      by kind from the dependency walker, and the metadata (`None` when fetching the
      package XML raised). */
  datatype Fetched = Fetched(
    srcUri: string,
    pkgNames: set<string>,
    buildtoolDeps: seq<string>,
    buildDeps: seq<string>,
    runDeps: seq<string>,
    testDeps: seq<string>,
    metadata: Option<PackageMetadata>)

  // ---------------------------------------------------------------------------
  // Reference definition of where each dependency ends up

  /** The kind of dependency a name was reported as; buildtool deps are Build. */
  datatype DepKind = Run | Build | Test

  /** The six lists of the record, and Dropped for a build dependency that is not stored. */
  datatype Bucket = Rdepends | RdependsExternal | Depends | DependsExternal | Tdepends | TdependsExternal | Dropped

  /** A run dependency: internal ones to the run list, external ones to the external
      run list, except the depend-only host packages, which go to the external build list. */
  function RunBucket(d: string, pkgNames: set<string>): Bucket {
    if d !in pkgNames && d in DependOnlyPkgs then DependsExternal
    else if d in pkgNames then Rdepends
    else RdependsExternal
  }

  /** A build dependency is dropped when the package also lists it as a run dependency
      that landed in a run list; otherwise it is an internal or external build dependency. */
  function BuildBucket(d: string, pkgNames: set<string>, runDeps: seq<string>): Bucket {
    if d in runDeps && RunBucket(d, pkgNames) != DependsExternal then Dropped
    else if d in pkgNames then Depends
    else DependsExternal
  }

  /** A test dependency is an internal or external test dependency. */
  function TestBucket(d: string, pkgNames: set<string>): Bucket {
    if d in pkgNames then Tdepends else TdependsExternal
  }

  /** Where a dependency of the given kind lands; a name is internal exactly when it
      is one of the distribution's package names. */
  function Route(kind: DepKind, d: string, pkgNames: set<string>, runDeps: seq<string>): Bucket {
    match kind
    case Run => RunBucket(d, pkgNames)
    case Build => BuildBucket(d, pkgNames, runDeps)
    case Test => TestBucket(d, pkgNames)
  }

  /** The names of `ds` that land in bucket `b`, in their original order. */
  function Select(ds: seq<string>, kind: DepKind, b: Bucket, pkgNames: set<string>, runDeps: seq<string>)
    : seq<string>
  {
    if |ds| == 0 then []
    else
      var last := ds[|ds| - 1];
      Select(ds[..|ds| - 1], kind, b, pkgNames, runDeps)
        + (if Route(kind, last, pkgNames, runDeps) == b then [last] else [])
  }

  /** A name is selected exactly when it is among `ds` and routes to `b`. */
  lemma {:induction false} SelectMembers(ds: seq<string>, kind: DepKind, b: Bucket,
                                         pkgNames: set<string>, runDeps: seq<string>, x: string)
    ensures x in Select(ds, kind, b, pkgNames, runDeps) <==> x in ds && Route(kind, x, pkgNames, runDeps) == b
  {
    if ds != [] {
      var init := ds[..|ds| - 1];
      assert ds == init + [ds[|ds| - 1]];
      SelectMembers(init, kind, b, pkgNames, runDeps, x);
    }
  }

  /** Each architecture as an unstable keyword, in order. */
  function Unstable(archs: seq<string>): (r: seq<Keyword>)
    ensures |r| == |archs|
  {
    if |archs| == 0 then [] else [Keyword(archs[0], false)] + Unstable(archs[1..])
  }

  /** The keyword at position `j` is the architecture at position `j`, unstable. */
  lemma {:induction false} UnstableAt(archs: seq<string>, j: int)
    requires 0 <= j < |archs|
    ensures Unstable(archs)[j] == Keyword(archs[j], false)
  {
    if j > 0 {
      UnstableAt(archs[1..], j - 1);
    }
  }

  /** One more architecture adds one more keyword at the end. */
  lemma {:induction false} UnstableSnoc(archs: seq<string>, a: string)
    ensures Unstable(archs + [a]) == Unstable(archs) + [Keyword(a, false)]
  {
    if archs == [] {
      assert archs + [a] == [a];
    } else {
      assert (archs + [a])[1..] == archs[1..] + [a];
      UnstableSnoc(archs[1..], a);
    }
  }

  /** The six dependency lists as the population leaves them. */
  ghost predicate DependencyLists(p: PkgBuild, f: Fetched)
    reads p`rdepends, p`rdependsExternal, p`depends, p`dependsExternal, p`tdepends, p`tdependsExternal
  {
    var names, run := f.pkgNames, f.runDeps;
    p.rdepends == Select(run, Run, Rdepends, names, run) &&
    p.rdependsExternal == Select(run, Run, RdependsExternal, names, run) &&
    p.depends == Select(f.buildDeps, Build, Depends, names, run)
                 + Select(f.buildtoolDeps, Build, Depends, names, run) &&
    p.dependsExternal == Select(run, Run, DependsExternal, names, run)
                         + Select(f.buildDeps, Build, DependsExternal, names, run)
                         + Select(f.buildtoolDeps, Build, DependsExternal, names, run) &&
    p.tdepends == Select(f.testDeps, Test, Tdepends, names, []) &&
    p.tdependsExternal == Select(f.testDeps, Test, TdependsExternal, names, [])
  }

  /** A record as the population leaves it, apart from the patch and Python flags. */
  ghost predicate Populated(p: PkgBuild, distroName: string, f: Fetched)
    reads p`distro, p`srcUri, p`keys
    reads p`rdepends, p`rdependsExternal, p`depends, p`dependsExternal, p`tdepends, p`tdependsExternal
    reads p`upstreamLicense, p`description, p`homepage, p`buildType
    reads p`eapi, p`cmakePackage, p`baseYml, p`version, p`unresolvedDeps, p`name, p`isRos2, p`patches
  {
    p.distro == Some(distroName) && p.srcUri == Some(f.srcUri) &&
    DependencyLists(p, f) &&
    p.keys == Unstable(PkgKeywords) &&
    (f.metadata.None? ==> p.MetadataDefaults()) &&
    (f.metadata.Some? ==>
       p.upstreamLicense == f.metadata.value.upstreamLicense &&
       p.description == f.metadata.value.description &&
       p.homepage == f.metadata.value.homepage &&
       p.buildType == f.metadata.value.buildType) &&
    p.FixedDefaults()
  }

  /** Every list empty and every other field at its default. */
  ghost predicate Unfilled(p: PkgBuild)
    reads p`keys
    reads p`rdepends, p`rdependsExternal, p`depends, p`dependsExternal, p`tdepends, p`tdependsExternal
    reads p`upstreamLicense, p`description, p`homepage, p`buildType
    reads p`eapi, p`cmakePackage, p`baseYml, p`version, p`unresolvedDeps, p`name, p`isRos2, p`patches
    reads p`hasPatches, p`python3
  {
    p.keys == [] && p.rdepends == [] && p.rdependsExternal == [] && p.depends == [] &&
    p.dependsExternal == [] && p.tdepends == [] && p.tdependsExternal == [] &&
    p.MetadataDefaults() && p.FixedDefaults() && !p.hasPatches && p.python3
  }

  /** The record once the source archive and the dependency lists are filled in, with
      every other field still at its default. */
  ghost predicate WithDependencies(p: PkgBuild, distroName: string, f: Fetched)
    reads p`distro, p`srcUri
    reads p`rdepends, p`rdependsExternal, p`depends, p`dependsExternal, p`tdepends, p`tdependsExternal
    reads p`upstreamLicense, p`description, p`homepage, p`buildType
    reads p`eapi, p`cmakePackage, p`baseYml, p`version, p`unresolvedDeps, p`name, p`isRos2, p`patches
    reads p`hasPatches, p`python3
  {
    p.distro == Some(distroName) && p.srcUri == Some(f.srcUri) &&
    DependencyLists(p, f) &&
    p.MetadataDefaults() && p.FixedDefaults() && !p.hasPatches && p.python3
  }

  // ---------------------------------------------------------------------------
  // The population

  /** The run-dependency loop: each name is added as internal exactly when it is a
      distribution package. */
  method AddRunDepends(p: PkgBuild, run: seq<string>, names: set<string>)
    modifies p`rdepends, p`rdependsExternal, p`dependsExternal
    ensures p.rdepends == old(p.rdepends) + Select(run, Run, Rdepends, names, run)
    ensures p.rdependsExternal == old(p.rdependsExternal) + Select(run, Run, RdependsExternal, names, run)
    ensures p.dependsExternal == old(p.dependsExternal) + Select(run, Run, DependsExternal, names, run)
  {
    for i := 0 to |run|
      invariant p.rdepends == old(p.rdepends) + Select(run[..i], Run, Rdepends, names, run)
      invariant p.rdependsExternal == old(p.rdependsExternal) + Select(run[..i], Run, RdependsExternal, names, run)
      invariant p.dependsExternal == old(p.dependsExternal) + Select(run[..i], Run, DependsExternal, names, run)
    {
      assert run[..i + 1][..i] == run[..i];
      p.AddRunDepend(run[i], run[i] in names);
    }
    assert run[..|run|] == run;
  }

  /** A build or buildtool dependency loop, run once the run lists hold exactly the
      package's run dependencies. */
  method AddBuildDepends(p: PkgBuild, ds: seq<string>, names: set<string>, ghost run: seq<string>)
    requires p.rdepends == Select(run, Run, Rdepends, names, run)
    requires p.rdependsExternal == Select(run, Run, RdependsExternal, names, run)
    modifies p`depends, p`dependsExternal
    ensures p.depends == old(p.depends) + Select(ds, Build, Depends, names, run)
    ensures p.dependsExternal == old(p.dependsExternal) + Select(ds, Build, DependsExternal, names, run)
  {
    for i := 0 to |ds|
      invariant p.depends == old(p.depends) + Select(ds[..i], Build, Depends, names, run)
      invariant p.dependsExternal == old(p.dependsExternal) + Select(ds[..i], Build, DependsExternal, names, run)
    {
      assert ds[..i + 1][..i] == ds[..i];
      SelectMembers(run, Run, Rdepends, names, run, ds[i]);
      SelectMembers(run, Run, RdependsExternal, names, run, ds[i]);
      p.AddBuildDepend(ds[i], ds[i] in names);
    }
    assert ds[..|ds|] == ds;
  }

  /** The test-dependency loop. */
  method AddTestDepends(p: PkgBuild, ds: seq<string>, names: set<string>)
    modifies p`tdepends, p`tdependsExternal
    ensures p.tdepends == old(p.tdepends) + Select(ds, Test, Tdepends, names, [])
    ensures p.tdependsExternal == old(p.tdependsExternal) + Select(ds, Test, TdependsExternal, names, [])
  {
    for i := 0 to |ds|
      invariant p.tdepends == old(p.tdepends) + Select(ds[..i], Test, Tdepends, names, [])
      invariant p.tdependsExternal == old(p.tdependsExternal) + Select(ds[..i], Test, TdependsExternal, names, [])
    {
      assert ds[..i + 1][..i] == ds[..i];
      p.AddTestDepend(ds[i], ds[i] in names);
    }
    assert ds[..|ds|] == ds;
  }

  /** The four dependency loops, in the order the generator runs them. */
  method AddDependencies(p: PkgBuild, f: Fetched)
    requires p.rdepends == [] && p.rdependsExternal == [] && p.depends == []
    requires p.dependsExternal == [] && p.tdepends == [] && p.tdependsExternal == []
    modifies p`rdepends, p`rdependsExternal, p`depends, p`dependsExternal, p`tdepends, p`tdependsExternal
    ensures DependencyLists(p, f)
  {
    var names := f.pkgNames;
    AddRunDepends(p, f.runDeps, names);
    AddBuildDepends(p, f.buildDeps, names, f.runDeps);
    AddBuildDepends(p, f.buildtoolDeps, names, f.runDeps);
    AddTestDepends(p, f.testDeps, names);
  }

  /** The keyword loop: every architecture is added as an unstable keyword. */
  method AddKeywords(p: PkgBuild, archs: seq<string>)
    modifies p`keys
    ensures p.keys == old(p.keys) + Unstable(archs)
  {
    for i := 0 to |archs|
      invariant p.keys == old(p.keys) + Unstable(archs[..i])
    {
      UnstableSnoc(archs[..i], archs[i]);
      assert archs[..i + 1] == archs[..i] + [archs[i]];
      p.AddKeyword(archs[i]);
    }
    assert archs[..|archs|] == archs;
  }

  /** The metadata step: the parsed descriptive fields replace the defaults; when the
      fetch failed the generator returns the record as it stands. */
  method CopyMetadata(p: PkgBuild, metadata: Option<PackageMetadata>)
    modifies p`upstreamLicense, p`description, p`homepage, p`buildType
    ensures metadata.None? ==> p.upstreamLicense == old(p.upstreamLicense) && p.description == old(p.description)
    ensures metadata.None? ==> p.homepage == old(p.homepage) && p.buildType == old(p.buildType)
    ensures metadata.Some? ==> p.upstreamLicense == metadata.value.upstreamLicense && p.description == metadata.value.description
    ensures metadata.Some? ==> p.homepage == metadata.value.homepage && p.buildType == metadata.value.buildType
  {
    if metadata.None? {
      return;
    }
    var pkg := metadata.value;
    p.upstreamLicense, p.description, p.homepage, p.buildType :=
      pkg.upstreamLicense, pkg.description, pkg.homepage, pkg.buildType;
  }

  /** A fresh record with its distribution and source archive set. */
  method NewSourcedRecord(distroName: string, f: Fetched) returns (p: PkgBuild)
    ensures fresh(p)
    ensures p.distro == Some(distroName) && p.srcUri == Some(f.srcUri) && Unfilled(p)
  {
    p := new PkgBuild();
    p.distro, p.srcUri := Some(distroName), Some(f.srcUri);
  }

  /** The first half of the population: a fresh record, its distribution and archive,
      then the run, build, buildtool and test dependency loops. */
  method NewRecord(distroName: string, f: Fetched) returns (p: PkgBuild)
    ensures fresh(p)
    ensures WithDependencies(p, distroName, f) && p.keys == []
  {
    p := NewSourcedRecord(distroName, f);
    AddDependencies(p, f);
  }

  /** The record after the keyword loop. */
  method NewKeywordedRecord(distroName: string, f: Fetched) returns (p: PkgBuild)
    ensures fresh(p)
    ensures WithDependencies(p, distroName, f) && p.keys == Unstable(PkgKeywords)
  {
    p := NewRecord(distroName, f);
    AddKeywords(p, PkgKeywords);
  }

  /** Builds the record of one package: run dependencies first, then build, buildtool
      and test dependencies, then the four unstable keywords, then the metadata, whose
      fetch failure leaves the descriptive defaults in place. */
  method GenPkgbuildForPackage(distroName: string, pkgName: string, f: Fetched) returns (p: PkgBuild)
    ensures fresh(p)
    ensures Populated(p, distroName, f)
    ensures !p.hasPatches && p.python3
  {
    p := NewKeywordedRecord(distroName, f);
    CopyMetadata(p, f.metadata);
  }

  /** The flags the generator object sets after population: whether the package has
      patches, and Python 3 turned off when the package does not support it. */
  method SetFlags(p: PkgBuild, distroName: string, f: Fetched, hasPatches: bool, noPython3: bool)
    requires Populated(p, distroName, f)
    modifies p`hasPatches, p`python3
    ensures Populated(p, distroName, f)
    ensures p.hasPatches == hasPatches
    ensures p.python3 == (old(p.python3) && !noPython3)
  {
    p.hasPatches := hasPatches;
    if noPython3 {
      p.python3 := false;
    }
  }

  /** What the regeneration step assigns after construction: the package name, its
      version, its patch files and the ROS 2 flag. The record's EAPI and its (empty)
      unresolved dependencies are untouched, and the version now decides whether
      rendering succeeds. */
  method SetIdentity(p: PkgBuild, distroName: string, f: Fetched,
                     pkgName: string, version: string, patches: seq<string>, isRos2: bool)
    requires Populated(p, distroName, f)
    modifies p`name, p`version, p`patches, p`isRos2
    ensures p.name == Some(pkgName) && p.version == Some(version)
    ensures p.patches == patches && p.isRos2 == isRos2
    ensures p.GetUnresolved() == [] && p.EapiLine() == "EAPI=6\n"
    ensures RecipeText(p.View()).Ok? <==> '-' in version
  {
    p.name, p.version, p.patches, p.isRos2 := Some(pkgName), Some(version), patches, isRos2;
  }

  /** The generator object of one package: builds the record, records whether the
      package has patches and turns Python 3 off for the packages known not to support it. */
  class ArchPkgbuild {
    var pkgbuild: PkgBuild

    constructor (distroName: string, pkgName: string, f: Fetched, hasPatches: bool := false)
      ensures fresh(pkgbuild)
      ensures Populated(pkgbuild, distroName, f)
      ensures pkgbuild.hasPatches == hasPatches
      ensures pkgbuild.python3 <==> pkgName !in NoPython3
    {
      var p := GenPkgbuildForPackage(distroName, pkgName, f);
      SetFlags(p, distroName, f, hasPatches, pkgName in NoPython3);
      pkgbuild := p;
    }

    /** Renders the package's recipe with the fixed distributor and license text. */
    method PkgbuildText(sanitize: (string, string) -> string, trim: string -> string)
      returns (r: Result<string>)
      modifies pkgbuild`description
      ensures pkgbuild.description == trim(sanitize(old(pkgbuild.description), IllegalDescChars))
      ensures r == RecipeText(pkgbuild.View())
    {
      r := pkgbuild.GetPkgbuildText(Org, OrgLicense, sanitize, trim);
    }
  }

  // ---------------------------------------------------------------------------
  // Properties of the population

  /** Each run dependency occurrence lands in exactly one of the three lists a run
      dependency can reach. */
  lemma {:induction false} RunDepsPartitioned(ds: seq<string>, pkgNames: set<string>, runDeps: seq<string>)
    ensures |Select(ds, Run, Rdepends, pkgNames, runDeps)| + |Select(ds, Run, RdependsExternal, pkgNames, runDeps)|
            + |Select(ds, Run, DependsExternal, pkgNames, runDeps)| == |ds|
  {
    if ds != [] {
      RunDepsPartitioned(ds[..|ds| - 1], pkgNames, runDeps);
    }
  }

  /** A name listed `n` times among dependencies that route to `b` is kept `n` times:
      nothing is de-duplicated. */
  lemma {:induction false} SelectKeepsRepeats(ds: seq<string>, kind: DepKind, b: Bucket,
                                              pkgNames: set<string>, runDeps: seq<string>, x: string)
    requires Route(kind, x, pkgNames, runDeps) == b
    ensures multiset(Select(ds, kind, b, pkgNames, runDeps))[x] == multiset(ds)[x]
  {
    if ds != [] {
      var init := ds[..|ds| - 1];
      assert ds == init + [ds[|ds| - 1]];
      SelectKeepsRepeats(init, kind, b, pkgNames, runDeps, x);
    }
  }

  /** Where a name is after population: on each list exactly when it is a dependency
      of a kind that routes there. */
  lemma ListMembers(p: PkgBuild, f: Fetched, d: string)
    requires DependencyLists(p, f)
    ensures d in p.rdepends <==> d in f.runDeps && RunBucket(d, f.pkgNames) == Rdepends
    ensures d in p.rdependsExternal <==> d in f.runDeps && RunBucket(d, f.pkgNames) == RdependsExternal
    ensures d in p.depends <==>
              (d in f.buildDeps || d in f.buildtoolDeps) && BuildBucket(d, f.pkgNames, f.runDeps) == Depends
    ensures d in p.dependsExternal <==>
              (d in f.runDeps && RunBucket(d, f.pkgNames) == DependsExternal) ||
              ((d in f.buildDeps || d in f.buildtoolDeps) && BuildBucket(d, f.pkgNames, f.runDeps) == DependsExternal)
    ensures d in p.tdepends <==> d in f.testDeps && TestBucket(d, f.pkgNames) == Tdepends
    ensures d in p.tdependsExternal <==> d in f.testDeps && TestBucket(d, f.pkgNames) == TdependsExternal
  {
    var names, run := f.pkgNames, f.runDeps;
    SelectMembers(run, Run, Rdepends, names, run, d);
    SelectMembers(run, Run, RdependsExternal, names, run, d);
    SelectMembers(run, Run, DependsExternal, names, run, d);
    SelectMembers(f.buildDeps, Build, Depends, names, run, d);
    SelectMembers(f.buildDeps, Build, DependsExternal, names, run, d);
    SelectMembers(f.buildtoolDeps, Build, Depends, names, run, d);
    SelectMembers(f.buildtoolDeps, Build, DependsExternal, names, run, d);
    SelectMembers(f.testDeps, Test, Tdepends, names, [], d);
    SelectMembers(f.testDeps, Test, TdependsExternal, names, [], d);
  }

  /** After population a name in an internal list is a distribution package and a name
      in an external list is not. */
  lemma PopulatedClassification(p: PkgBuild, distroName: string, f: Fetched, d: string)
    requires Populated(p, distroName, f)
    ensures d in p.rdepends || d in p.depends || d in p.tdepends ==> d in f.pkgNames
    ensures d in p.rdependsExternal || d in p.dependsExternal || d in p.tdependsExternal ==> d !in f.pkgNames
  {
    ListMembers(p, f, d);
  }

  /** After population no name is on both a build list and a run list: the build loop
      skips exactly the names the run loop filed under a run list. */
  lemma PopulatedDisjoint(p: PkgBuild, f: Fetched)
    requires DependencyLists(p, f)
    ensures p.BuildRunDisjoint()
  {
    forall d | d in p.depends || d in p.dependsExternal
      ensures d !in p.rdepends && d !in p.rdependsExternal
    {
      ListMembers(p, f, d);
    }
  }

  /** A name that is both a run and a build or buildtool dependency ends up only on
      the run side, unless it is an external depend-only package. */
  lemma RunWinsOverBuild(p: PkgBuild, distroName: string, f: Fetched, d: string)
    requires Populated(p, distroName, f)
    requires d in f.runDeps && (d in f.buildDeps || d in f.buildtoolDeps)
    requires d in f.pkgNames || d !in DependOnlyPkgs
    ensures d in p.rdepends || d in p.rdependsExternal
    ensures d !in p.depends && d !in p.dependsExternal
  {
    ListMembers(p, f, d);
  }

  /** An external depend-only package that is both a run and a build dependency is
      filed under the external build list twice, since the run side never sees it. */
  lemma DependOnlyListedTwice(p: PkgBuild, distroName: string, f: Fetched, d: string)
    requires Populated(p, distroName, f)
    requires d in f.runDeps && d in f.buildDeps
    requires d !in f.pkgNames && d in DependOnlyPkgs
    ensures multiset(p.dependsExternal)[d] >= 2
  {
    var names, run := f.pkgNames, f.runDeps;
    SelectKeepsRepeats(run, Run, DependsExternal, names, run, d);
    SelectKeepsRepeats(f.buildDeps, Build, DependsExternal, names, run, d);
  }

  /** After population the keywords are exactly `x86`, `amd64`, `arm`, `arm64`, in that
      order and all unstable, whatever the package. */
  lemma PopulatedKeywords(p: PkgBuild, distroName: string, f: Fetched)
    requires Populated(p, distroName, f)
    ensures p.keys == [Keyword("x86", false), Keyword("amd64", false), Keyword("arm", false), Keyword("arm64", false)]
    ensures forall j :: 0 <= j < |p.keys| ==> p.keys[j].ToString() == "~" + PkgKeywords[j]
  {
    forall j | 0 <= j < |p.keys|
      ensures p.keys[j] == Keyword(PkgKeywords[j], false)
    {
      UnstableAt(PkgKeywords, j);
    }
  }

  /** Nothing keeps the test lists apart from the others: a distribution package that
      is both a build and a test dependency, and not a run dependency, is on both the
      internal build list and the internal test list. */
  lemma BuildAndTestShare(p: PkgBuild, distroName: string, f: Fetched, d: string)
    requires Populated(p, distroName, f)
    requires d in f.buildDeps && d in f.testDeps && d !in f.runDeps && d in f.pkgNames
    ensures d in p.depends && d in p.tdepends
  {
    ListMembers(p, f, d);
  }

  /** Test dependencies neither depend on nor affect the build and run lists. */
  lemma TestDepsIndependent(p: PkgBuild, q: PkgBuild, distroName: string, f: Fetched, testDeps: seq<string>)
    requires Populated(p, distroName, f)
    requires Populated(q, distroName, f.(testDeps := testDeps))
    ensures p.rdepends == q.rdepends && p.rdependsExternal == q.rdependsExternal
    ensures p.depends == q.depends && p.dependsExternal == q.dependsExternal
  {
  }
}
